/**
 * The checkpoint store (src/FileMeta.js): one record per upload session, kept
 * under the key `__gcsBrowserUpload.<id>` of a key/value storage. The record
 * holds, for each chunk index, the chunk's digest and the hasher state after
 * that chunk, plus the chunk size, the file size and a `started` flag.
 *
 * The storage is a map from keys to records: serialising a record to JSON and
 * parsing it back is taken to be the identity. A hole in the sparse `checksums`
 * array (which JSON writes as null) is `None`.
 */
module Checkpoint {
  import opened Wrappers
  import opened Encoding

  const STORAGE_KEY := "__gcsBrowserUpload"

  datatype ChunkRecord = ChunkRecord(checksum: string, state: seq<byte>)

  datatype Meta = Meta(checksums: seq<Option<ChunkRecord>>, chunkSize: nat, started: bool, fileSize: nat)

  /** The storage key of a session. */
  function StorageKey(id: string): string {
    STORAGE_KEY + "." + id
  }

  /** Two sessions with different ids never share a key. */
  lemma StorageKeyInjective(a: string, b: string)
    requires StorageKey(a) == StorageKey(b)
    ensures a == b
  {
    var n := |STORAGE_KEY + "."|;
    assert a == StorageKey(a)[n..];
    assert b == StorageKey(b)[n..];
  }

  /** The record `getMeta` returns when nothing is stored. */
  function DefaultMeta(chunkSize: nat, fileSize: nat): Meta {
    Meta([], chunkSize, false, fileSize)
  }

  /** `getMeta`: the stored record, or the default one. */
  function CurrentMeta(stored: Option<Meta>, chunkSize: nat, fileSize: nat): (m: Meta)
    ensures stored.Some? ==> m == stored.value
    ensures stored.None? ==> m.checksums == [] && !m.started && m.chunkSize == chunkSize && m.fileSize == fileSize
  {
    stored.GetOr(DefaultMeta(chunkSize, fileSize))
  }

  /** `isResumable`, for a session whose chunk size is `chunkSize`. */
  predicate Resumable(m: Meta, chunkSize: nat) {
    m.started && m.chunkSize == chunkSize
  }

  /** `getResumeIndex`: the length of the (possibly sparse) checksum array. */
  function ResumeIndex(m: Meta): nat {
    |m.checksums|
  }

  /** The record at `index`, or None for a hole or an index past the end. */
  function RecordAt(m: Meta, index: nat): Option<ChunkRecord> {
    if index < |m.checksums| then m.checksums[index] else None
  }

  /** `getChecksum`: None where the source reads a field of `undefined`/`null`. */
  function ChecksumAt(m: Meta, index: nat): (r: Option<string>)
    ensures r.Some? <==> RecordAt(m, index).Some?
    ensures r.Some? ==> r.value == RecordAt(m, index).value.checksum
  {
    match RecordAt(m, index)
    case Some(rec) => Some(rec.checksum)
    case None => None
  }

  /** `getSparkMD5State`: None where the source reads a field of `undefined`/`null`. */
  function StateAt(m: Meta, index: nat): (r: Option<seq<byte>>)
    ensures r.Some? <==> RecordAt(m, index).Some?
    ensures r.Some? ==> r.value == RecordAt(m, index).value.state
  {
    match RecordAt(m, index)
    case Some(rec) => Some(rec.state)
    case None => None
  }

  /** The array assignment `a[index] = x`, which pads with holes when `index` is past the end. */
  function Assign(a: seq<Option<ChunkRecord>>, index: nat, x: ChunkRecord): seq<Option<ChunkRecord>> {
    if index < |a| then a[index := Some(x)] else a + seq(index - |a|, _ => None) + [Some(x)]
  }

  /** `addChecksum`: what the record becomes. */
  function WithChecksum(m: Meta, index: nat, checksum: string, state: seq<byte>): (r: Meta)
    ensures |r.checksums| == if index < |m.checksums| then |m.checksums| else index + 1
    ensures r.checksums[index] == Some(ChunkRecord(checksum, state))
    ensures forall j :: 0 <= j < |m.checksums| && j != index ==> r.checksums[j] == m.checksums[j]
    ensures forall j :: |m.checksums| <= j < index ==> r.checksums[j] == None
    ensures r.started && r.chunkSize == m.chunkSize && r.fileSize == m.fileSize
  {
    m.(checksums := Assign(m.checksums, index, ChunkRecord(checksum, state)), started := true)
  }

  /** After `addChecksum(i, c, s)`, `getChecksum(i)` is `c` and `getSparkMD5State(i)` is `s`. */
  lemma ReadBackChecksum(m: Meta, index: nat, checksum: string, state: seq<byte>)
    ensures ChecksumAt(WithChecksum(m, index, checksum, state), index) == Some(checksum)
    ensures StateAt(WithChecksum(m, index, checksum, state), index) == Some(state)
    ensures forall j :: j != index ==> RecordAt(WithChecksum(m, index, checksum, state), j) == RecordAt(m, j)
  {
  }

  /** The record after `addChecksum` at indices 0, 1, ..., |recs| - 1 in turn, starting from `m`. */
  function Replay(m: Meta, recs: seq<ChunkRecord>): Meta
    decreases |recs|
  {
    if recs == [] then m
    else
      var last := recs[|recs| - 1];
      WithChecksum(Replay(m, recs[..|recs| - 1]), |recs| - 1, last.checksum, last.state)
  }

  /**
   * Recording chunks 0..k-1 in order on a fresh record gives exactly those k
   * records, so the resume index is k.
   */
  lemma {:induction false} ReplayFromEmpty(chunkSize: nat, fileSize: nat, recs: seq<ChunkRecord>)
    ensures var m := Replay(DefaultMeta(chunkSize, fileSize), recs);
      && ResumeIndex(m) == |recs|
      && (forall j :: 0 <= j < |recs| ==> m.checksums[j] == Some(recs[j]))
      && m.started == (recs != [])
      && m.chunkSize == chunkSize && m.fileSize == fileSize
    decreases |recs|
  {
    if recs != [] {
      var init := recs[..|recs| - 1];
      ReplayFromEmpty(chunkSize, fileSize, init);
      var m := Replay(DefaultMeta(chunkSize, fileSize), recs);
      forall j | 0 <= j < |recs|
        ensures m.checksums[j] == Some(recs[j])
      {
        if j < |recs| - 1 {
          assert init[j] == recs[j];
        }
      }
    }
  }

  /** The key/value storage (window.localStorage), holding parsed records. */
  class Storage {
    var items: map<string, Meta>

    constructor (items: map<string, Meta>)
      ensures this.items == items
    {
      this.items := items;
    }
  }

  class FileMeta {
    const id: string
    const fileSize: nat
    const chunkSize: nat
    const storage: Storage

    constructor (id: string, fileSize: nat, chunkSize: nat, storage: Storage)
      ensures this.id == id && this.fileSize == fileSize && this.chunkSize == chunkSize
      ensures this.storage == storage
    {
      this.id := id;
      this.fileSize := fileSize;
      this.chunkSize := chunkSize;
      this.storage := storage;
    }

    function Key(): string {
      StorageKey(id)
    }

    /** What is stored under this session's key. */
    function Stored(): Option<Meta>
      reads storage
    {
      if Key() in storage.items then Some(storage.items[Key()]) else None
    }

    /** What `getMeta` returns now. */
    function Current(): Meta
      reads storage
    {
      CurrentMeta(Stored(), chunkSize, fileSize)
    }

    method GetMeta() returns (m: Meta)
      ensures m == Current()
      ensures Stored().None? ==> m == DefaultMeta(chunkSize, fileSize)
    {
      if Key() in storage.items {
        m := storage.items[Key()];
      } else {
        m := DefaultMeta(chunkSize, fileSize);
      }
    }

    /** `setMeta(meta)`; `None` (null) removes the key. No other key is touched. */
    method SetMeta(meta: Option<Meta>)
      modifies storage
      ensures Stored() == meta
      ensures storage.items == if meta.Some? then old(storage.items)[Key() := meta.value]
                               else old(storage.items) - {Key()}
    {
      if meta.Some? {
        storage.items := storage.items[Key() := meta.value];
      } else {
        storage.items := storage.items - {Key()};
      }
    }

    method IsResumable() returns (b: bool)
      ensures b <==> Current().started && Current().chunkSize == chunkSize
    {
      var m := GetMeta();
      b := m.started && chunkSize == m.chunkSize;
    }

    method GetResumeIndex() returns (n: nat)
      ensures n == |Current().checksums|
    {
      var m := GetMeta();
      n := |m.checksums|;
    }

    method GetFileSize() returns (n: nat)
      ensures n == Current().fileSize
    {
      var m := GetMeta();
      n := m.fileSize;
    }

    /** `addChecksum`: overwrite one index of the record, mark it started, write it back. */
    method AddChecksum(index: nat, checksum: string, state: seq<byte>)
      modifies storage
      ensures Stored() == Some(WithChecksum(old(Current()), index, checksum, state))
      ensures storage.items == old(storage.items)[Key() := WithChecksum(old(Current()), index, checksum, state)]
    {
      var m := GetMeta();
      m := m.(checksums := Assign(m.checksums, index, ChunkRecord(checksum, state)), started := true);
      SetMeta(Some(m));
    }

    method GetChecksum(index: nat) returns (r: Option<string>)
      ensures r == ChecksumAt(Current(), index)
    {
      var m := GetMeta();
      r := if index < |m.checksums| && m.checksums[index].Some? then Some(m.checksums[index].value.checksum) else None;
    }

    method GetSparkMD5State(index: nat) returns (r: Option<seq<byte>>)
      ensures r == StateAt(Current(), index)
    {
      var m := GetMeta();
      r := if index < |m.checksums| && m.checksums[index].Some? then Some(m.checksums[index].value.state) else None;
    }

    /** `reset`: remove the record; afterwards the session reads as fresh and not resumable. */
    method Reset()
      modifies storage
      ensures Stored() == None
      ensures Current() == DefaultMeta(chunkSize, fileSize)
      ensures !Resumable(Current(), chunkSize) && ResumeIndex(Current()) == 0
      ensures storage.items == old(storage.items) - {Key()}
    {
      SetMeta(None);
    }
  }
}
