/**
 * The upload orchestrator's decision logic (src/Upload.js): option validation,
 * the classification of response statuses, the digest checks on response
 * headers, the `Content-Range` headers, and the parse of the `range` header
 * that tells how many bytes the service holds.
 *
 * Header maps are keyed by lower-case header names, as the browser transport
 * delivers them; a missing header reads as the empty string, which is falsy in
 * the source just as `undefined` is.
 */
module Uploads {
  import opened Wrappers
  import opened Encoding
  import opened Processor

  /** The protocol's minimum chunk size, 5 MiB. */
  const MIN_CHUNK_SIZE: int := 5242880
  const DEFAULT_CONTENT_TYPE := "text/plain"
  const DEFAULT_RETRIES: nat := 10

  /**
   * The errors a session raises. `MissingRecord` stands for the TypeError the
   * source raises when it reads a field of a checkpoint entry that is absent;
   * `Malformed` for the TypeError of indexing a failed regular-expression
   * match; `NetworkError` for a transport failure; `ResumeBeyondFile` for a
   * resume index past the last chunk.
   */
  datatype UploadError =
    | InvalidChunkSize(chunkSize: int)
    | MissingOptions
    | UploadAlreadyFinished
    | UploadIncomplete
    | FileAlreadyUploaded(id: string, url: string)
    | UrlNotFound(url: string)
    | UploadFailed(status: int)
    | UnknownResponse(status: int)
    | DifferentChunk(index: nat, originalChecksum: string, newChecksum: string)
    | MissingRecord
    | Malformed(header: string)
    | NetworkError
    | ResumeBeyondFile(resumeIndex: nat)

  // ----------------------------------------------------------------- options

  /** The caller's options; `None` is an option the caller did not pass. */
  datatype Args = Args(chunkSize: Option<int>, contentType: Option<string>, id: Option<string>,
                       url: Option<string>, file: Option<seq<byte>>, retries: Option<nat>)

  /** The options after merging with the defaults and validating. */
  datatype Config = Config(id: string, url: string, file: seq<byte>, chunkSize: PosNat,
                           contentType: string, retries: nat)

  /**
   * The chunk-size guard as the source writes it: a size that is zero or not a
   * multiple of the minimum, unless small chunks are allowed. Only whether the
   * remainder is zero matters, and that is the same under JavaScript's
   * truncating `%` and Dafny's Euclidean one.
   */
  predicate ChunkSizeRejectedAsWritten(chunkSize: int, allowSmallChunks: bool) {
    (chunkSize % MIN_CHUNK_SIZE != 0 || chunkSize == 0) && !allowSmallChunks
  }

  /**
   * The guard as intended: a chunk size must be positive, and a multiple of the
   * minimum unless small chunks are allowed.
   */
  predicate ChunkSizeRejected(chunkSize: int, allowSmallChunks: bool) {
    chunkSize <= 0 || (chunkSize % MIN_CHUNK_SIZE != 0 && !allowSmallChunks)
  }

  /**
   * The guard as written lets through a negative multiple of the minimum, and,
   * with small chunks allowed, zero and every negative size; the intended guard
   * refuses them. With such a size the chunk count `Math.ceil(size / chunkSize)`
   * of a non-empty file is infinite or negative, so the index a run counts up
   * from 0 never reaches it.
   */
  lemma ChunkSizeGuardGaps()
    ensures !ChunkSizeRejectedAsWritten(-MIN_CHUNK_SIZE, false) && ChunkSizeRejected(-MIN_CHUNK_SIZE, false)
    ensures !ChunkSizeRejectedAsWritten(0, true) && ChunkSizeRejected(0, true)
    ensures !ChunkSizeRejectedAsWritten(-1, true) && ChunkSizeRejected(-1, true)
  {
  }

  /** On positive sizes the two guards agree. */
  lemma ChunkSizeGuardsAgreeOnPositive(chunkSize: int, allowSmallChunks: bool)
    requires chunkSize > 0
    ensures ChunkSizeRejectedAsWritten(chunkSize, allowSmallChunks) == ChunkSizeRejected(chunkSize, allowSmallChunks)
  {
  }

  /** `!value` for a string option: absent or empty. */
  predicate Falsy(s: Option<string>) {
    s.None? || s.value == ""
  }

  /**
   * The constructor's option handling: merge with the defaults, check the chunk
   * size first, then that `id`, `url` and `file` are present.
   */
  function ValidateOptions(args: Args, allowSmallChunks: bool): (r: Result<Config, UploadError>)
    ensures var cs := args.chunkSize.GetOr(MIN_CHUNK_SIZE);
      && (r.Success? <==> !ChunkSizeRejected(cs, allowSmallChunks) && !Falsy(args.id) && !Falsy(args.url) && args.file.Some?)
      && (r.Failure? && r.error.InvalidChunkSize? <==> ChunkSizeRejected(cs, allowSmallChunks))
      && (r.Failure? && !r.error.InvalidChunkSize? ==> r.error == MissingOptions)
      && (r.Success? ==>
            && r.value.chunkSize == cs && r.value.chunkSize > 0
            && (allowSmallChunks || r.value.chunkSize % MIN_CHUNK_SIZE == 0)
            && r.value.id == args.id.value && r.value.url == args.url.value && r.value.file == args.file.value
            && r.value.contentType == args.contentType.GetOr(DEFAULT_CONTENT_TYPE)
            && r.value.retries == args.retries.GetOr(DEFAULT_RETRIES))
  {
    var cs := args.chunkSize.GetOr(MIN_CHUNK_SIZE);
    if ChunkSizeRejected(cs, allowSmallChunks) then Failure(InvalidChunkSize(cs))
    else if Falsy(args.id) || Falsy(args.url) || args.file.None? then Failure(MissingOptions)
    else Success(Config(args.id.value, args.url.value, args.file.value, cs as PosNat,
                        args.contentType.GetOr(DEFAULT_CONTENT_TYPE), args.retries.GetOr(DEFAULT_RETRIES)))
  }

  /** Only `id`, `url` and `file` given: the defaults apply. */
  lemma DefaultOptions(id: string, url: string, file: seq<byte>)
    requires id != "" && url != ""
    ensures ValidateOptions(Args(None, None, Some(id), Some(url), Some(file), None), false)
         == Success(Config(id, url, file, 5242880, "text/plain", 10))
  {
  }

  /** A chunk size of 1000000 without the override fails on the chunk size, whatever else is missing. */
  lemma SmallChunkRefused(args: Args)
    requires args.chunkSize == Some(1000000)
    ensures ValidateOptions(args, false) == Failure(InvalidChunkSize(1000000))
  {
  }

  // --------------------------------------------------------- status checks

  /** `checkResponseStatus(res, opts, allowed)`: pass, or the error that classifies the status. */
  function CheckResponseStatus(status: int, allowed: seq<int>, id: string, url: string): (r: Outcome<UploadError>)
    ensures r.Pass? <==> status in allowed
  {
    if status in allowed then Pass
    else if status == 308 then Fail(UploadIncomplete)
    else if status == 200 || status == 201 then Fail(FileAlreadyUploaded(id, url))
    else if status == 404 then Fail(UrlNotFound(url))
    else if status in {500, 502, 503, 504} then Fail(UploadFailed(status))
    else Fail(UnknownResponse(status))
  }

  /** The statuses a chunk upload accepts. */
  const CHUNK_STATUSES: seq<int> := [200, 201, 308]

  /** The statuses the status probe accepts. */
  const PROBE_STATUSES: seq<int> := [308]

  /**
   * For a chunk upload: 200, 201 and 308 pass; 404 is the only status that makes
   * retrying stop; the 5xx statuses of the protocol are upload failures; every
   * other status is an unknown response.
   */
  lemma ChunkStatusClassification(status: int, id: string, url: string)
    ensures var r := CheckResponseStatus(status, CHUNK_STATUSES, id, url);
      && (r.Pass? <==> status == 200 || status == 201 || status == 308)
      && (r == Fail(UrlNotFound(url)) <==> status == 404)
      && (r == Fail(UploadFailed(status)) <==> status in {500, 502, 503, 504})
      && (r == Fail(UnknownResponse(status)) <==> !(status in {200, 201, 308, 404, 500, 502, 503, 504}))
  {
  }

  /** For the status probe: only 308 passes, and 200 or 201 means the file is already uploaded. */
  lemma ProbeStatusClassification(status: int, id: string, url: string)
    ensures var r := CheckResponseStatus(status, PROBE_STATUSES, id, url);
      && (r.Pass? <==> status == 308)
      && (r == Fail(FileAlreadyUploaded(id, url)) <==> status == 200 || status == 201)
      && (r == Fail(UrlNotFound(url)) <==> status == 404)
  {
  }

  // ---------------------------------------------------------------- headers

  /** `headers[name]`, with a missing header read as the empty string. */
  function Header(headers: map<string, string>, name: string): string {
    if name in headers then headers[name] else ""
  }

  /** Where the maximal run of digits at the end of `s` starts. */
  function TrailingDigitsStart(s: string): (j: nat)
    ensures j <= |s| && AllDigits(s[j..])
    ensures j > 0 ==> !IsDigit(s[j - 1])
    decreases |s|
  {
    if |s| > 0 && IsDigit(s[|s| - 1]) then
      var i := TrailingDigitsStart(s[..|s| - 1]);
      assert s[i..] == s[..|s| - 1][i..] + [s[|s| - 1]];
      i
    else |s|
  }

  /**
   * `parseInt(h.match(/(\d+?)-(\d+?)$/)[2])`: the second group is the digit run
   * that ends the string; the match needs a `-` right before that run and a
   * digit right before the `-`. None where the source indexes a failed match.
   */
  function ParseRangeEnd(h: string): (r: Option<nat>)
    ensures r.Some? ==> exists j :: 2 <= j < |h| && h[j - 1] == '-' && IsDigit(h[j - 2])
                                    && AllDigits(h[j..]) && r.value == DecimalValue(h[j..])
  {
    var j := TrailingDigitsStart(h);
    if 2 <= j < |h| && h[j - 1] == '-' && IsDigit(h[j - 2]) then Some(DecimalValue(h[j..])) else None
  }

  /** A range ending in `<a>-<b>` yields `b`, whatever comes before it. */
  lemma ParseRangeEndOf(prefix: string, a: nat, b: nat)
    ensures ParseRangeEnd(prefix + NatToString(a) + "-" + NatToString(b)) == Some(b)
  {
    var sa, sb := NatToString(a), NatToString(b);
    var h := prefix + sa + "-" + sb;
    var k := |prefix + sa + "-"|;
    assert h[k..] == sb;
    assert h[k - 1] == '-';
    assert h[k - 2] == sa[|sa| - 1];
    TrailingDigitsOf(h, k);
    DecimalValueOfNatToString(b);
  }

  /** When `s[k..]` is a non-empty digit run preceded by a non-digit, it is the trailing digit run. */
  lemma {:induction false} TrailingDigitsOf(s: string, k: nat)
    requires 0 < k < |s| && !IsDigit(s[k - 1]) && AllDigits(s[k..])
    ensures TrailingDigitsStart(s) == k
    decreases |s|
  {
    assert IsDigit(s[k..][|s| - 1 - k]);
    if k < |s| - 1 {
      var t := s[..|s| - 1];
      assert t[k..] == s[k..][..|s| - 1 - k];
      assert t[k - 1] == s[k - 1];
      TrailingDigitsOf(t, k);
    } else {
      var t := s[..|s| - 1];
      assert |t| == k && t[k - 1] == s[k - 1];
    }
  }

  /** The text after the first occurrence of `pat`, or None if there is none. */
  function AfterFirst(s: string, pat: string): (r: Option<string>)
    ensures r.Some? ==> |r.value| + |pat| <= |s| && r.value == s[|s| - |r.value|..]
    decreases |s|
  {
    if |s| < |pat| then None
    else if s[..|pat|] == pat then Some(s[|pat|..])
    else AfterFirst(s[1..], pat)
  }

  predicate IsLineTerminator(c: char) {
    c == '\n' || c == '\r' || c == '\U{2028}' || c == '\U{2029}'
  }

  /** What `.*` matches: everything up to the first line terminator. */
  function UpToLineEnd(s: string): (r: string)
    ensures |r| <= |s| && r == s[..|r|]
    ensures forall i :: 0 <= i < |r| ==> !IsLineTerminator(r[i])
    ensures |r| < |s| ==> IsLineTerminator(s[|r|])
  {
    if s == [] || IsLineTerminator(s[0]) then [] else [s[0]] + UpToLineEnd(s[1..])
  }

  /** `value.match(/md5=(.*)/)[1]`; None where the source indexes a failed match. */
  function Md5Field(value: string): Option<string> {
    match AfterFirst(value, "md5=")
    case None => None
    case Some(rest) => Some(UpToLineEnd(rest))
  }

  /** A header value that starts with `md5=` yields the rest of its line. */
  lemma Md5FieldOfPrefixed(b: string)
    requires forall i :: 0 <= i < |b| ==> !IsLineTerminator(b[i])
    ensures Md5Field("md5=" + b) == Some(b)
  {
    var s := "md5=" + b;
    assert s[..4] == "md5=";
    assert s[4..] == b;
    NoTerminatorLine(b);
  }

  lemma {:induction false} NoTerminatorLine(b: string)
    requires forall i :: 0 <= i < |b| ==> !IsLineTerminator(b[i])
    ensures UpToLineEnd(b) == b
    decreases |b|
  {
    if b != [] {
      NoTerminatorLine(b[1..]);
    }
  }

  /**
   * `hexToBase64`: read the string two word characters at a time as hexadecimal
   * byte codes and base64-encode the codes; None where `match` finds no pair
   * and the source calls `map` on null.
   */
  function HexToBase64(hex: string): (r: Option<string>)
    ensures r.Some? <==> WordPairs(hex) != []
  {
    var codes := WordPairs(hex);
    if codes == [] then None else Some(Base64Encode(codes))
  }

  /** On a hexadecimal digest string it is the base64 encoding of the digest's bytes. */
  lemma HexToBase64OfDigest(d: seq<byte>)
    requires d != []
    ensures HexToBase64(Hex(d)) == Some(Base64Encode(d))
  {
    WordPairsOfHex(d);
  }

  /** The digest the response reports: `x-goog-hash`, or failing that `x-range-md5`. */
  function ReceivedMd5(headers: map<string, string>): string {
    var goog := Header(headers, "x-goog-hash");
    if goog != "" then goog else Header(headers, "x-range-md5")
  }

  /** The `range` branch: a reported end equal to the chunk's end demands the same digest. */
  function CheckRangeDigest(headers: map<string, string>, index: nat, end: int, checksum: string): (r: Outcome<UploadError>)
    ensures r.Fail? && r.error.DifferentChunk? ==>
      && ParseRangeEnd(Header(headers, "range")) == Some(end)
      && ReceivedMd5(headers) != checksum
      && r.error == DifferentChunk(index, checksum, ReceivedMd5(headers))
    ensures Header(headers, "range") == "" ==> r.Pass?
    ensures (Header(headers, "range") != "" && ParseRangeEnd(Header(headers, "range")) == Some(end)
             && ReceivedMd5(headers) != checksum) ==> r == Fail(DifferentChunk(index, checksum, ReceivedMd5(headers)))
    ensures Header(headers, "range") != "" && ParseRangeEnd(Header(headers, "range")) == None ==>
      r == Fail(Malformed("range"))
    ensures r.Pass? <==>
      || Header(headers, "range") == ""
      || (ParseRangeEnd(Header(headers, "range")).Some?
          && (ParseRangeEnd(Header(headers, "range")) != Some(end) || ReceivedMd5(headers) == checksum))
  {
    var range := Header(headers, "range");
    if range == "" then Pass
    else match ParseRangeEnd(range)
      case None => Fail(Malformed("range"))
      case Some(b) =>
        var received := ReceivedMd5(headers);
        if b == end && received != checksum then Fail(DifferentChunk(index, checksum, received)) else Pass
  }

  /**
   * `checkResponseHeaders`, with the comparison of the stored length to `end + 1`
   * given as `lengthMatches`: no reported digest passes; an `x-goog-hash` md5
   * field that differs from the local digest in base64 fails when the length
   * matches; otherwise the `range` branch decides.
   */
  function CheckDigestHeaders(headers: map<string, string>, index: nat, end: int, checksum: string,
                              lengthMatches: bool): Outcome<UploadError>
  {
    var received := ReceivedMd5(headers);
    if received == "" then Pass
    else if Header(headers, "x-goog-hash") != "" && lengthMatches then
      match Md5Field(received)
      case None => Fail(Malformed("x-goog-hash"))
      case Some(field) =>
        match HexToBase64(checksum)
        case None => Fail(Malformed("checksum"))
        case Some(local) =>
          if field != local then Fail(DifferentChunk(index, local, received))
          else CheckRangeDigest(headers, index, end, checksum)
    else CheckRangeDigest(headers, index, end, checksum)
  }

  /**
   * `checkResponseHeaders` as written: it compares the number `end + 1` with the
   * header string by `===`, which never holds, so the `x-goog-hash` digest is
   * never compared and only the `range` branch can fail.
   */
  function CheckResponseHeadersAsWritten(headers: map<string, string>, index: nat, end: int, checksum: string): (r: Outcome<UploadError>)
    ensures ReceivedMd5(headers) != "" ==> r == CheckRangeDigest(headers, index, end, checksum)
  {
    CheckDigestHeaders(headers, index, end, checksum, false)
  }

  /** `x-goog-stored-content-length` read as a decimal number equals `n`. */
  predicate StoredLengthIs(headers: map<string, string>, n: int) {
    var v := Header(headers, "x-goog-stored-content-length");
    v != "" && AllDigits(v) && DecimalValue(v) == n
  }

  /**
   * Whether the `x-goog-hash` digest is compared: the header is present and the
   * stored length is the chunk's end plus one.
   */
  predicate GoogDigestApplies(headers: map<string, string>, end: int) {
    Header(headers, "x-goog-hash") != "" && StoredLengthIs(headers, end + 1)
  }

  /** `checkResponseHeaders` as intended: the stored length is compared as a number. */
  function CheckResponseHeaders(headers: map<string, string>, index: nat, end: int, checksum: string): (r: Outcome<UploadError>)
    ensures ReceivedMd5(headers) == "" ==> r.Pass?
    ensures r.Fail? && r.error.DifferentChunk? && Header(headers, "x-goog-hash") == "" ==>
      ParseRangeEnd(Header(headers, "range")) == Some(end)
    ensures GoogDigestApplies(headers, end) ==>
      match (Md5Field(ReceivedMd5(headers)), HexToBase64(checksum))
      case (None, _) => r == Fail(Malformed("x-goog-hash"))
      case (Some(_), None) => r == Fail(Malformed("checksum"))
      case (Some(field), Some(local)) =>
        if field != local then r == Fail(DifferentChunk(index, local, ReceivedMd5(headers)))
        else r == CheckRangeDigest(headers, index, end, checksum)
    ensures ReceivedMd5(headers) != "" && !GoogDigestApplies(headers, end) ==>
      r == CheckRangeDigest(headers, index, end, checksum)
  {
    CheckDigestHeaders(headers, index, end, checksum, StoredLengthIs(headers, end + 1))
  }

  /**
   * A response the check accepts carries no digest that contradicts the local
   * one: where the `x-goog-hash` digest is compared it is the local digest in
   * base64, and where `range` reports the chunk's end the reported digest is
   * the local one.
   */
  lemma AcceptedHeadersAgree(headers: map<string, string>, index: nat, end: int, checksum: string)
    requires CheckResponseHeaders(headers, index, end, checksum) == Pass
    ensures GoogDigestApplies(headers, end) ==>
      Md5Field(ReceivedMd5(headers)).Some? && Md5Field(ReceivedMd5(headers)) == HexToBase64(checksum)
    ensures (ReceivedMd5(headers) != "" && Header(headers, "range") != ""
             && ParseRangeEnd(Header(headers, "range")) == Some(end)) ==> ReceivedMd5(headers) == checksum
  {
  }

  /**
   * Where the stored length is not the chunk's end plus one, the check as
   * written and the intended check decide alike.
   */
  lemma HeaderChecksAgreeOffLength(headers: map<string, string>, index: nat, end: int, checksum: string)
    requires !StoredLengthIs(headers, end + 1)
    ensures CheckResponseHeadersAsWritten(headers, index, end, checksum) == CheckResponseHeaders(headers, index, end, checksum)
  {
  }

  /**
   * A final response that reports the whole chunk stored and an md5 that is not
   * the local digest: the check as written lets it pass, the intended check
   * fails with a digest mismatch.
   */
  lemma GoogDigestMismatchIgnored(index: nat, end: nat, d: seq<byte>, reported: string)
    requires d != [] && Base64Encode(d) != reported
    requires forall i :: 0 <= i < |reported| ==> !IsLineTerminator(reported[i])
    ensures var headers := map["x-goog-hash" := "md5=" + reported, "x-goog-stored-content-length" := NatToString(end + 1)];
      && CheckResponseHeadersAsWritten(headers, index, end, Hex(d)) == Pass
      && CheckResponseHeaders(headers, index, end, Hex(d)) == Fail(DifferentChunk(index, Base64Encode(d), "md5=" + reported))
  {
    var headers := map["x-goog-hash" := "md5=" + reported, "x-goog-stored-content-length" := NatToString(end + 1)];
    assert Header(headers, "x-goog-hash") == "md5=" + reported;
    assert Header(headers, "range") == "";
    DecimalValueOfNatToString(end + 1);
    Md5FieldOfPrefixed(reported);
    HexToBase64OfDigest(d);
  }

  /** With the matching md5 and no `range` header, the intended check passes. */
  lemma GoogDigestMatchAccepted(index: nat, end: nat, d: seq<byte>)
    requires d != []
    ensures var headers := map["x-goog-hash" := "md5=" + Base64Encode(d), "x-goog-stored-content-length" := NatToString(end + 1)];
      CheckResponseHeaders(headers, index, end, Hex(d)) == Pass
  {
    var b := Base64Encode(d);
    var headers := map["x-goog-hash" := "md5=" + b, "x-goog-stored-content-length" := NatToString(end + 1)];
    assert Header(headers, "x-goog-hash") == "md5=" + b;
    assert Header(headers, "range") == "";
    DecimalValueOfNatToString(end + 1);
    Base64Alphabet(d);
    Md5FieldOfPrefixed(b);
    HexToBase64OfDigest(d);
  }

  /** Base64 output has no line terminators. */
  lemma Base64Alphabet(d: seq<byte>)
    ensures forall i :: 0 <= i < |Base64Encode(d)| ==> !IsLineTerminator(Base64Encode(d)[i])
  {
    Base64EncodeChars(d);
  }

  lemma {:induction false} Base64EncodeChars(d: seq<byte>)
    ensures forall i :: 0 <= i < |Base64Encode(d)| ==> Base64Encode(d)[i] as int < 128 && Base64Encode(d)[i] as int > 32
    decreases |d|
  {
    if |d| >= 3 {
      Base64EncodeChars(d[3..]);
    }
  }

  // ---------------------------------------------------------- content range

  /** `bytes {start}-{end}/{total}`: the header of a chunk upload. */
  function ContentRange(start: nat, end: int, total: nat): string {
    "bytes " + NatToString(start) + "-" + IntToString(end) + "/" + NatToString(total)
  }

  // `bytes */{total}`: the header of the status probe.
  function ProbeRange(total: nat): string {
    "bytes */" + NatToString(total)
  }

  /**
   * A chunk header determines the chunk's bounds and the file size, so the
   * service can tell every chunk request apart.
   */
  lemma ContentRangeDeterminesBounds(s1: nat, e1: nat, t1: nat, s2: nat, e2: nat, t2: nat)
    requires ContentRange(s1, e1, t1) == ContentRange(s2, e2, t2)
    ensures s1 == s2 && e1 == e2 && t1 == t2
  {
    ContentRangeTail(s1, e1, t1);
    ContentRangeTail(s2, e2, t2);
    var x1, x2 := NatToString(e1) + "/" + NatToString(t1), NatToString(e2) + "/" + NatToString(t2);
    SplitAtSeparator(NatToString(s1), x1, NatToString(s2), x2, '-');
    NatToStringInjective(s1, s2);
    SplitAtSeparator(NatToString(e1), NatToString(t1), NatToString(e2), NatToString(t2), '/');
    NatToStringInjective(e1, e2);
    NatToStringInjective(t1, t2);
  }

  lemma ContentRangeTail(start: nat, end: nat, total: nat)
    ensures ContentRange(start, end, total)[6..]
         == NatToString(start) + ['-'] + (NatToString(end) + "/" + NatToString(total))
  {
    var r := NatToString(start) + ['-'] + (NatToString(end) + "/" + NatToString(total));
    assert ContentRange(start, end, total) == "bytes " + r;
    assert ("bytes " + r)[6..] == r;
  }

  /** A probe header is never a chunk header. */
  lemma ProbeRangeIsNotChunkRange(start: nat, end: int, t1: nat, t2: nat)
    ensures ProbeRange(t1) != ContentRange(start, end, t2)
  {
    assert ProbeRange(t1)[6] == '*';
    assert ContentRange(start, end, t2)[6] == NatToString(start)[0];
  }

  /** The number of leading digits of a string. */
  function LeadingDigits(s: string): (n: nat)
    ensures n <= |s|
  {
    if s != [] && IsDigit(s[0]) then 1 + LeadingDigits(s[1..]) else 0
  }

  lemma {:induction false} LeadingDigitsOf(a: string, rest: string)
    requires AllDigits(a) && rest != [] && !IsDigit(rest[0])
    ensures LeadingDigits(a + rest) == |a|
    decreases |a|
  {
    if a != [] {
      assert (a + rest)[1..] == a[1..] + rest;
      LeadingDigitsOf(a[1..], rest);
    }
  }

  /** Two digit strings each followed by a non-digit separator split the same way only if they are equal. */
  lemma SplitAtSeparator(a: string, x: string, b: string, y: string, sep: char)
    requires AllDigits(a) && AllDigits(b) && !IsDigit(sep)
    requires a + [sep] + x == b + [sep] + y
    ensures a == b && x == y
  {
    var s := a + [sep] + x;
    assert s == a + ([sep] + x);
    assert b + [sep] + y == b + ([sep] + y);
    LeadingDigitsOf(a, [sep] + x);
    LeadingDigitsOf(b, [sep] + y);
    assert a == s[..|a|] == b;
    assert x == s[|a| + 1..] == y;
  }
}
