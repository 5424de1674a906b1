/**
 * The rolling MD5 hasher (SparkMD5.ArrayBuffer) as the upload client uses it:
 * bytes are appended chunk by chunk, the state can be read and set, and `end`
 * yields the hex digest of everything appended and resets the hasher.
 *
 * The MD5 compression function itself (RFC 1321) is not modelled: a hasher's
 * state is the sequence of bytes fed to it since its last reset, and the digest
 * is an arbitrary function `md5` of that sequence, supplied by the caller.
 */
module Hasher {
  import opened Encoding

  /** An MD5 digest is sixteen bytes. */
  type Digest = d: seq<byte> | |d| == 16 witness seq(16, _ => 0 as byte)

  /** The digest function, left abstract. */
  type Md5 = seq<byte> -> Digest

  /** The string `end()` returns for a hasher that has been fed `bytes`. */
  function HexDigest(md5: Md5, bytes: seq<byte>): (s: string)
    ensures |s| == 32
  {
    Hex(md5(bytes))
  }

  class Md5Hasher {
    const md5: Md5
    /** The hasher's state: the bytes appended since the last reset. */
    var fed: seq<byte>

    constructor (md5: Md5)
      ensures this.md5 == md5 && fed == []
    {
      this.md5 := md5;
      fed := [];
    }

    /** `append(chunk)`. */
    method Append(chunk: seq<byte>)
      modifies this
      ensures fed == old(fed) + chunk
    {
      fed := fed + chunk;
    }

    /** `getState()`: a copy of the state, which is plain data. */
    method GetState() returns (state: seq<byte>)
      ensures state == fed
    {
      state := fed;
    }

    /** `setState(state)`. */
    method SetState(state: seq<byte>)
      modifies this
      ensures fed == state
    {
      fed := state;
    }

    /** `end()`: the digest of all bytes fed so far; the hasher is reset afterwards. */
    method End() returns (digest: string)
      modifies this
      ensures digest == HexDigest(md5, old(fed))
      ensures fed == []
    {
      digest := HexDigest(md5, fed);
      fed := [];
    }
  }
}
