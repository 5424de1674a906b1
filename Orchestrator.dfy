/**
 * The upload session of src/Upload.js: the upload and validation handlers that
 * the chunk processor drives, the status probe, the resume decision, and the
 * `start()` lifecycle, first as functions over a world value and then as the
 * `Upload` class whose methods compute them.
 *
 * The network is a sequence of responses given in advance: each request takes
 * the next one, and `None` (or an exhausted sequence) is a transport failure.
 * The world also holds the checkpoint entry, the requests sent, the progress
 * reports, and the last accepted response.
 */
module Orchestrator {
  import opened Wrappers
  import opened Encoding
  import opened Hasher
  import opened Checkpoint
  import opened Processor
  import opened Uploads

  datatype Request = Request(url: string, contentRange: string, contentType: Option<string>, body: seq<byte>)

  datatype Response = Response(status: int, headers: map<string, string>)

  /** The argument of `onChunkUpload`. */
  datatype Progress = Progress(totalBytes: nat, uploadedBytes: nat, chunkIndex: nat, chunkLength: nat)

  datatype World = World(stored: Option<Meta>, network: seq<Option<Response>>, sent: seq<Request>,
                         progress: seq<Progress>, lastResult: Option<Response>)

  /** A validated configuration and the digest function. */
  datatype Session = Session(opts: Config, md5: Md5)

  function Src(s: Session): Source {
    Source(s.opts.file, s.opts.chunkSize, s.md5)
  }

  function Total(s: Session): nat {
    TotalChunks(|s.opts.file|, s.opts.chunkSize)
  }

  /** What `getMeta` reads for this session in world `w`. */
  function MetaOf(s: Session, w: World): Meta {
    CurrentMeta(w.stored, s.opts.chunkSize, |s.opts.file|)
  }

  // ----------------------------------------------------------------- network

  /** The response the request `k` places from now takes; None once the network is exhausted. */
  function ResponseAt(network: seq<Option<Response>>, k: nat): Option<Response> {
    if k < |network| then network[k] else None
  }

  /** The network left after `n` more requests. */
  function DropResponses(network: seq<Option<Response>>, n: nat): seq<Option<Response>> {
    if n <= |network| then network[n..] else []
  }

  /** After one request, the responses ahead are the old ones shifted by one. */
  lemma DropOneShifts(network: seq<Option<Response>>)
    ensures forall k: nat :: ResponseAt(DropResponses(network, 1), k) == ResponseAt(network, k + 1)
    ensures forall n: nat :: DropResponses(DropResponses(network, 1), n) == DropResponses(network, n + 1)
  {
    forall n: nat ensures DropResponses(DropResponses(network, 1), n) == DropResponses(network, n + 1) {
      if n + 1 <= |network| {
        assert network[1..][n..] == network[n + 1..];
      }
    }
  }

  /** `safePut`: send a request and take the next response, if any. */
  function Send(w: World, req: Request): (r: (Option<Response>, World))
    ensures r.0 == (if w.network == [] then None else w.network[0])
    ensures r.1 == w.(network := if w.network == [] then [] else w.network[1..], sent := w.sent + [req])
    ensures r.0 == ResponseAt(w.network, 0) && r.1.network == DropResponses(w.network, 1)
  {
    if w.network == [] then (None, w.(sent := w.sent + [req]))
    else (w.network[0], w.(network := w.network[1..], sent := w.sent + [req]))
  }

  /**
   * The retried attempt of a chunk upload, given what `safePut` answered: a
   * transport failure, a status other than 200, 201 and 308, or headers that
   * fail the digest check make the attempt fail with that error, and otherwise
   * the response is the attempt's result. A 404 is the only final failure.
   */
  function Attempt(s: Session, resp: Option<Response>, index: nat, end: int, checksum: string)
    : (r: Result<Response, UploadError>)
    ensures r.Success? <==>
      resp.Some? && resp.value.status in CHUNK_STATUSES && CheckResponseHeaders(resp.value.headers, index, end, checksum) == Pass
    ensures r.Success? ==> resp == Some(r.value)
    ensures resp.None? ==> r == Failure(NetworkError)
    ensures resp.Some? && resp.value.status == 404 ==> r == Failure(UrlNotFound(s.opts.url))
    ensures resp.Some? && resp.value.status !in CHUNK_STATUSES ==>
      r == Failure(CheckResponseStatus(resp.value.status, CHUNK_STATUSES, s.opts.id, s.opts.url).error)
    ensures resp.Some? && resp.value.status in CHUNK_STATUSES && CheckResponseHeaders(resp.value.headers, index, end, checksum).Fail? ==>
      r == Failure(CheckResponseHeaders(resp.value.headers, index, end, checksum).error)
    ensures Final(r) <==> r.Success? || (resp.Some? && resp.value.status == 404)
  {
    match resp
    case None => Failure(NetworkError)
    case Some(res) =>
      ChunkStatusClassification(res.status, s.opts.id, s.opts.url);
      match CheckResponseStatus(res.status, CHUNK_STATUSES, s.opts.id, s.opts.url)
      case Fail(e) => Failure(e)
      case Pass =>
        match CheckResponseHeaders(res.headers, index, end, checksum)
        case Fail(e) => Failure(e)
        case Pass => Success(res)
  }

  /** Whether the retry driver stops on this result: success, or a not-found error. */
  predicate Final(r: Result<Response, UploadError>) {
    r.Success? || r.error.UrlNotFound?
  }

  /** None of the first `n` responses is accepted or a 404. */
  predicate NoFinalBefore(s: Session, network: seq<Option<Response>>, n: int, index: nat, end: int, checksum: string) {
    forall k :: 0 <= k < n ==> !Final(Attempt(s, ResponseAt(network, k), index, end, checksum))
  }

  /**
   * `pRetry(attempt, {retries})` with `left` retries remaining, over the
   * responses ahead: repeat the attempt until it succeeds, fails with a
   * not-found error (which aborts), or the retries are used up. The result is
   * the last attempt's outcome and the number `n` of requests made: the first
   * `n - 1` responses were neither accepted nor a 404, the result is that of
   * response `n - 1`, and it is final unless all `left + 1` attempts ran.
   */
  function Retry(s: Session, network: seq<Option<Response>>, index: nat, end: int, checksum: string, left: nat)
    : (r: (Result<Response, UploadError>, nat))
    ensures 1 <= r.1 <= left + 1
    ensures r.0 == Attempt(s, ResponseAt(network, r.1 - 1), index, end, checksum)
    ensures NoFinalBefore(s, network, r.1 - 1, index, end, checksum)
    ensures Final(r.0) || r.1 == left + 1
    decreases left
  {
    var a := Attempt(s, ResponseAt(network, 0), index, end, checksum);
    if Final(a) || left == 0 then (a, 1)
    else
      var r := Retry(s, DropResponses(network, 1), index, end, checksum, left - 1);
      RetryShift(s, network, r.1, r.0, index, end, checksum);
      (r.0, r.1 + 1)
  }

  /** The facts about a retry from the second response on, restated from the first. */
  lemma RetryShift(s: Session, network: seq<Option<Response>>, m: nat, r0: Result<Response, UploadError>,
                   index: nat, end: int, checksum: string)
    requires m >= 1
    requires !Final(Attempt(s, ResponseAt(network, 0), index, end, checksum))
    requires r0 == Attempt(s, ResponseAt(DropResponses(network, 1), m - 1), index, end, checksum)
    requires NoFinalBefore(s, DropResponses(network, 1), m - 1, index, end, checksum)
    ensures r0 == Attempt(s, ResponseAt(network, m), index, end, checksum)
    ensures NoFinalBefore(s, network, m, index, end, checksum)
  {
    DropOneShifts(network);
    forall k | 0 <= k < m
      ensures !Final(Attempt(s, ResponseAt(network, k), index, end, checksum))
    {
      if k > 0 {
        assert ResponseAt(network, k) == ResponseAt(DropResponses(network, 1), k - 1);
      }
    }
  }

  /** The one attempt that is final with none final before it is the one the retries stop at. */
  lemma FirstFinalDecides(s: Session, network: seq<Option<Response>>, index: nat, end: int, checksum: string,
                          left: nat, k: nat)
    requires k <= left
    requires Final(Attempt(s, ResponseAt(network, k), index, end, checksum))
    requires NoFinalBefore(s, network, k, index, end, checksum)
    ensures Retry(s, network, index, end, checksum, left) == (Attempt(s, ResponseAt(network, k), index, end, checksum), k + 1)
  {
    var r := Retry(s, network, index, end, checksum, left);
    if r.1 - 1 < k {
      assert false;
    } else if r.1 - 1 > k {
      assert false;
    }
  }

  /**
   * A 404 stops the retries at once: when every earlier response was neither
   * accepted nor a 404, a 404 at attempt `k` is surfaced after exactly `k + 1`
   * requests, whatever retries remain.
   */
  lemma NotFoundAbortsRetrying(s: Session, network: seq<Option<Response>>, index: nat, end: int, checksum: string,
                               left: nat, k: nat, headers: map<string, string>)
    requires k <= left
    requires ResponseAt(network, k) == Some(Response(404, headers))
    requires NoFinalBefore(s, network, k, index, end, checksum)
    ensures Retry(s, network, index, end, checksum, left) == (Failure(UrlNotFound(s.opts.url)), k + 1)
  {
    FirstFinalDecides(s, network, index, end, checksum, left, k);
  }

  /** Response `k` is accepted, and none before it was accepted or a 404. */
  predicate FirstAcceptedAt(s: Session, network: seq<Option<Response>>, k: nat, index: nat, end: int, checksum: string) {
    Attempt(s, ResponseAt(network, k), index, end, checksum).Success? && NoFinalBefore(s, network, k, index, end, checksum)
  }

  /** Some response among the first `left + 1` is accepted, and none before it was accepted or a 404. */
  predicate AcceptedWithin(s: Session, network: seq<Option<Response>>, left: nat, index: nat, end: int, checksum: string) {
    exists k :: 0 <= k <= left && FirstAcceptedAt(s, network, k, index, end, checksum)
  }

  /**
   * The retries succeed exactly when some response among the first
   * `left + 1` is accepted and none before it was a 404 or accepted.
   */
  lemma RetrySucceedsIff(s: Session, network: seq<Option<Response>>, index: nat, end: int, checksum: string, left: nat)
    ensures Retry(s, network, index, end, checksum, left).0.Success? <==> AcceptedWithin(s, network, left, index, end, checksum)
  {
    var r := Retry(s, network, index, end, checksum, left);
    if r.0.Success? {
      assert FirstAcceptedAt(s, network, r.1 - 1, index, end, checksum);
    }
    if k :| 0 <= k <= left && FirstAcceptedAt(s, network, k, index, end, checksum) {
      FirstFinalDecides(s, network, index, end, checksum, left, k);
    }
  }

  /** When no response among the first `left + 1` is final, all attempts run and the last one's error is surfaced. */
  lemma RetriesExhausted(s: Session, network: seq<Option<Response>>, index: nat, end: int, checksum: string, left: nat)
    requires NoFinalBefore(s, network, left + 1, index, end, checksum)
    ensures var r := Retry(s, network, index, end, checksum, left);
      r.1 == left + 1 && r.0.Failure? && r.0 == Attempt(s, ResponseAt(network, r.1 - 1), index, end, checksum)
  {
    var r := Retry(s, network, index, end, checksum, left);
    NoFinalStopsLast(s, network, index, end, checksum, left, r.1, r.0);
  }

  lemma NoFinalStopsLast(s: Session, network: seq<Option<Response>>, index: nat, end: int, checksum: string,
                         left: nat, n: nat, r0: Result<Response, UploadError>)
    requires NoFinalBefore(s, network, left + 1, index, end, checksum)
    requires 1 <= n <= left + 1 && r0 == Attempt(s, ResponseAt(network, n - 1), index, end, checksum)
    requires Final(r0) || n == left + 1
    ensures n == left + 1 && !Final(r0)
  {
    assert !Final(Attempt(s, ResponseAt(network, n - 1), index, end, checksum));
  }

  /** A 503 and then an accepted response: the second attempt's response is the result. */
  lemma TransientFailureRetried(s: Session, network: seq<Option<Response>>, index: nat, end: int, checksum: string,
                                left: nat, h503: map<string, string>, res: Response)
    requires left >= 1
    requires |network| >= 2 && network[0] == Some(Response(503, h503)) && network[1] == Some(res)
    requires res.status in CHUNK_STATUSES && CheckResponseHeaders(res.headers, index, end, checksum) == Pass
    ensures Retry(s, network, index, end, checksum, left) == (Success(res), 2)
  {
    assert Attempt(s, ResponseAt(network, 0), index, end, checksum) == Failure(UploadFailed(503));
    FirstFinalDecides(s, network, index, end, checksum, left, 1);
  }

  /** `n` copies of the request: what `pRetry` puts when it makes `n` attempts. */
  function Repeat(req: Request, n: nat): (r: seq<Request>)
    ensures |r| == n && forall k :: 0 <= k < n ==> r[k] == req
  {
    seq(n, _ => req)
  }

  // ---------------------------------------------------------------- handlers

  /** The offset in the file of chunk `ch`'s first byte. */
  function FirstByte(s: Session, ch: Chunk): nat {
    ch.index * s.opts.chunkSize
  }

  /** The offset in the file of chunk `ch`'s last byte: the `end` of its `Content-Range`. */
  function LastByte(s: Session, ch: Chunk): int {
    FirstByte(s, ch) + |ch.data| - 1
  }

  /** The progress report after chunk `index` is accepted. */
  function ReportAt(s: Session, index: nat, length: nat): Progress {
    Progress(|s.opts.file|, index * s.opts.chunkSize + length, index, length)
  }

  /**
   * `uploadChunk`: put the chunk with its `Content-Range`, retrying as
   * configured; once a response is accepted, keep it as the last result, record
   * the chunk's digest and hasher state in the checkpoint, and report the bytes
   * up to the chunk's end as uploaded. When the retries fail, the checkpoint,
   * the progress and the last result are as before. Every attempt puts the
   * same request, and each takes one response off the network.
   */
  function UploadChunk(s: Session, w: World, ch: Chunk): (v: Verdict<World, UploadError>)
    ensures !v.Halt?
    ensures v.Continue? <==> ChunkRetry(s, w, ch).0.Success?
    ensures v.Continue? ==> v.world.lastResult == Some(ChunkRetry(s, w, ch).0.value)
    ensures v.world == AfterRetries(s, w, ch, ChunkRetry(s, w, ch).0, ChunkRetry(s, w, ch).1).world
  {
    var r := ChunkRetry(s, w, ch);
    AfterRetries(s, w, ch, r.0, r.1)
  }

  /** The retries `uploadChunk` runs for chunk `ch`: `pRetry` over `safePut`, checked against the chunk's end and digest. */
  function ChunkRetry(s: Session, w: World, ch: Chunk): (Result<Response, UploadError>, nat) {
    Retry(s, w.network, ch.index, LastByte(s, ch), ch.checksum, s.opts.retries)
  }

  /** What `uploadChunk` does once the retries have ended with `result` after `n` requests. */
  function AfterRetries(s: Session, w: World, ch: Chunk, result: Result<Response, UploadError>, n: nat)
    : (v: Verdict<World, UploadError>)
    ensures !v.Halt?
    ensures v.Continue? <==> result.Success?
    ensures v.Continue? ==> v.world.lastResult == Some(result.value)
    ensures v.Throw? ==> v.error == result.error
    ensures v.world.network == DropResponses(w.network, n) && |v.world.sent| == |w.sent| + n
    ensures v.world.sent[..|w.sent|] == w.sent
    ensures forall k :: |w.sent| <= k < |v.world.sent| ==>
      v.world.sent[k] == Request(s.opts.url,
                                 ContentRange(FirstByte(s, ch), LastByte(s, ch), |s.opts.file|),
                                 Some(s.opts.contentType), ch.data)
    ensures v.Continue? ==>
      && v.world.stored == Some(WithChecksum(MetaOf(s, w), ch.index, ch.checksum, ch.state))
      && v.world.progress == w.progress + [ReportAt(s, ch.index, |ch.data|)]
    ensures v.Throw? ==> v.world.stored == w.stored && v.world.progress == w.progress && v.world.lastResult == w.lastResult
  {
    var req := Request(s.opts.url, ContentRange(FirstByte(s, ch), LastByte(s, ch), |s.opts.file|), Some(s.opts.contentType), ch.data);
    var w' := w.(network := DropResponses(w.network, n), sent := w.sent + Repeat(req, n));
    match result
    case Failure(e) => Throw(w', e)
    case Success(res) =>
      Continue(w'.(lastResult := Some(res),
                   stored := Some(WithChecksum(MetaOf(s, w), ch.index, ch.checksum, ch.state)),
                   progress := w.progress + [ReportAt(s, ch.index, |ch.data|)]))
  }

  /**
   * Every attempt for a chunk puts the chunk's bytes to the session URL with its
   * content type and `Content-Range: bytes {start}-{end}/{size}`, where the
   * chunk starts at `index * chunkSize` and ends at its last byte; the requests
   * sent before are kept.
   */
  lemma UploadChunkRequests(s: Session, w: World, ch: Chunk)
    ensures var v := UploadChunk(s, w, ch);
      && |v.world.sent| > |w.sent| && v.world.sent[..|w.sent|] == w.sent
      && forall k :: |w.sent| <= k < |v.world.sent| ==>
           v.world.sent[k] == Request(s.opts.url,
                                      ContentRange(FirstByte(s, ch), LastByte(s, ch), |s.opts.file|),
                                      Some(s.opts.contentType), ch.data)
  {
  }

  /**
   * A chunk is accepted exactly when, among the first `retries + 1` responses,
   * one passes the status and digest checks and none before it was a 404 or
   * accepted.
   */
  lemma UploadChunkAcceptedIff(s: Session, w: World, ch: Chunk)
    ensures UploadChunk(s, w, ch).Continue? <==>
      AcceptedWithin(s, w.network, s.opts.retries, ch.index, LastByte(s, ch), ch.checksum)
  {
    ChunkRetrySucceedsIff(s, w, ch);
  }

  lemma ChunkRetrySucceedsIff(s: Session, w: World, ch: Chunk)
    ensures ChunkRetry(s, w, ch).0.Success? <==>
      AcceptedWithin(s, w.network, s.opts.retries, ch.index, LastByte(s, ch), ch.checksum)
  {
    RetrySucceedsIff(s, w.network, ch.index, LastByte(s, ch), ch.checksum, s.opts.retries);
  }

  /** The response an accepted chunk keeps as the last result is one the network gave. */
  lemma UploadChunkKeepsResponse(s: Session, w: World, ch: Chunk)
    ensures var v := UploadChunk(s, w, ch);
      v.Continue? ==> exists k :: 0 <= k < |w.network| && w.network[k] == v.world.lastResult
  {
    var r := ChunkRetry(s, w, ch);
    if r.0.Success? {
      assert ResponseAt(w.network, r.1 - 1) == Some(r.0.value);
      assert w.network[r.1 - 1] == UploadChunk(s, w, ch).world.lastResult;
    }
  }

  /**
   * `validateChunk`: the digest recorded for the index must equal the one just
   * computed; on a mismatch the checkpoint is erased. Reading a missing entry
   * fails without erasing.
   */
  function ValidateChunk(s: Session, w: World, ch: Chunk): (v: Verdict<World, UploadError>)
    ensures !v.Halt?
    ensures v.Continue? <==> ChecksumAt(MetaOf(s, w), ch.index) == Some(ch.checksum)
    ensures v.Continue? ==> v.world == w
    ensures v.Throw? && v.error.DifferentChunk? ==> v.world == w.(stored := None)
    ensures v.Throw? && !v.error.DifferentChunk? ==> v.world == w && v.error == MissingRecord
  {
    match ChecksumAt(MetaOf(s, w), ch.index)
    case None => Throw(w, MissingRecord)
    case Some(original) =>
      if original == ch.checksum then Continue(w)
      else Throw(w.(stored := None), DifferentChunk(ch.index, original, ch.checksum))
  }

  function UploadHandler(s: Session): (World, Chunk) -> Verdict<World, UploadError> {
    (w, ch) => UploadChunk(s, w, ch)
  }

  function ValidateHandler(s: Session): (World, Chunk) -> Verdict<World, UploadError> {
    (w, ch) => ValidateChunk(s, w, ch)
  }

  /** Neither handler ever returns `false`. */
  lemma HandlersNeverHalt(s: Session)
    ensures NeverHalts(UploadHandler(s)) && NeverHalts(ValidateHandler(s))
  {
    forall w, ch ensures !UploadHandler(s)(w, ch).Halt? && !ValidateHandler(s)(w, ch).Halt? {
      assert UploadHandler(s)(w, ch) == UploadChunk(s, w, ch);
      assert ValidateHandler(s)(w, ch) == ValidateChunk(s, w, ch);
    }
  }

  // ------------------------------------------------------------------- probe

  /**
   * `getRemoteResumeIndex`: put an empty probe, demand a 308, and take the
   * number of whole chunks among the bytes the `range` header reports.
   */
  function Probe(s: Session, w: World): (r: (Result<nat, UploadError>, World))
    ensures r.1 == Send(w, Request(s.opts.url, ProbeRange(|s.opts.file|), None, [])).1
  {
    var (resp, w') := Send(w, Request(s.opts.url, ProbeRange(|s.opts.file|), None, []));
    match resp
    case None => (Failure(NetworkError), w')
    case Some(res) =>
      match CheckResponseStatus(res.status, PROBE_STATUSES, s.opts.id, s.opts.url)
      case Fail(e) => (Failure(e), w')
      case Pass =>
        match ParseRangeEnd(Header(res.headers, "range"))
        case None => (Failure(Malformed("range")), w')
        case Some(b) => (Success((b + 1) / s.opts.chunkSize), w')
  }

  /** A 308 reporting bytes `a`-`b` gives `floor((b + 1) / chunkSize)`. */
  lemma ProbeIndexOf(s: Session, w: World, prefix: string, a: nat, b: nat, headers: map<string, string>)
    requires w.network != []
    requires w.network[0] == Some(Response(308, headers))
    requires Header(headers, "range") == prefix + NatToString(a) + "-" + NatToString(b)
    ensures Probe(s, w).0 == Success((b + 1) / s.opts.chunkSize)
  {
    ParseRangeEndOf(prefix, a, b);
  }

  /** `Range: bytes 0-5242879` with 5 MiB chunks gives remote index 1. */
  lemma ProbeExample(s: Session, w: World, headers: map<string, string>)
    requires s.opts.chunkSize == 5242880
    requires w.network != [] && w.network[0] == Some(Response(308, headers))
    requires Header(headers, "range") == "bytes 0-5242879"
    ensures Probe(s, w).0 == Success(1)
  {
    assert NatToString(0) == "0";
    NatToStringExample();
    assert "bytes 0-5242879" == "bytes " + NatToString(0) + "-" + NatToString(5242879);
    ProbeIndexOf(s, w, "bytes ", 0, 5242879, headers);
  }

  lemma NatToStringExample()
    ensures NatToString(5242879) == "5242879"
  {
    assert NatToString(52) == NatToString(5) + "2";
    assert NatToString(524) == NatToString(52) + "4";
    assert NatToString(5242) == NatToString(524) + "2";
    assert NatToString(52428) == NatToString(5242) + "8";
    assert NatToString(524287) == NatToString(52428) + "7";
    assert NatToString(5242879) == NatToString(524287) + "9";
  }

  // ------------------------------------------------------------------ resume

  /** `Math.min(localResumeIndex, remoteResumeIndex)`. */
  function ResumePoint(local: nat, remote: nat): (r: nat)
    ensures r <= local && r <= remote && (r == local || r == remote)
  {
    if local < remote then local else remote
  }

  /** `resumeIndex - 2`, clamped at 0: where revalidation starts. */
  function WindowStart(resumeIndex: nat): (r: nat)
    ensures r <= resumeIndex
    ensures resumeIndex - r == if resumeIndex < 2 then resumeIndex else 2
  {
    if resumeIndex >= 2 then resumeIndex - 2 else 0
  }

  /** How a run ends, as the orchestrator sees it. */
  datatype Phase = Phase(outcome: Outcome<UploadError>, world: World)

  /** A run's end: a missing hasher state is the TypeError the source raises. */
  function Settle(o: RunOutcome<World, UploadError>, before: World): (p: Phase)
    ensures o.Finished? ==> p == Phase(Pass, o.world)
    ensures o.Failed? ==> p == Phase(Fail(o.error), o.world)
    ensures o.StateMissing? ==> p == Phase(Fail(MissingRecord), before)
  {
    match o
    case Finished(w) => Phase(Pass, w)
    case Failed(w, e) => Phase(Fail(e), w)
    case StateMissing => Phase(Fail(MissingRecord), before)
  }

  /** `processor.run(uploadChunk)`: upload every chunk from index 0. */
  function Fresh(s: Session, w: World): Phase {
    Settle(RunSpec(Src(s), UploadHandler(s), w, MetaOf(s, w), 0, None).outcome, w)
  }

  /** `processor.run(uploadChunk, resumeIndex)`. */
  function UploadFrom(s: Session, w: World, resumeIndex: nat): Phase
    requires resumeIndex <= Total(s)
  {
    Settle(RunSpec(Src(s), UploadHandler(s), w, MetaOf(s, w), resumeIndex, None).outcome, w)
  }

  /** `processor.run(validateChunk, WindowStart(resumeIndex), resumeIndex)`. */
  function Validate(s: Session, w: World, resumeIndex: nat): Walked<World, UploadError>
    requires resumeIndex <= Total(s)
  {
    RunSpec(Src(s), ValidateHandler(s), w, MetaOf(s, w), WindowStart(resumeIndex), Some(resumeIndex))
  }

  /**
   * `resumeUpload`: the local index is the checkpoint's length, the remote one
   * comes from the probe (whose failure is surfaced); the window before the
   * smaller of the two is revalidated; any failure of revalidation falls back
   * to a fresh upload, and otherwise the upload goes on from the resume index.
   */
  function Resume(s: Session, w: World): Phase {
    var local := ResumeIndex(MetaOf(s, w));
    var (probe, w1) := Probe(s, w);
    match probe
    case Failure(e) => Phase(Fail(e), w1)
    case Success(remote) =>
      var ri := ResumePoint(local, remote);
      if ri > Total(s) then Phase(Fail(ResumeBeyondFile(ri)), w1)
      else ResumeAt(s, w1, ri)
  }

  /**
   * The rest of `resumeUpload` once the resume index is known: validate the
   * window, then upload from the index; a mismatch (or a missing record)
   * falls back to a fresh upload.
   */
  function ResumeAt(s: Session, w1: World, ri: nat): Phase
    requires ri <= Total(s)
  {
    match Validate(s, w1, ri).outcome
    case Finished(w2) => UploadFrom(s, w2, ri)
    case Failed(w2, _) => Fresh(s, w2)
    case StateMissing => Fresh(s, w1)
  }

  /** Whether `start()` takes the resume path. */
  predicate ResumeChosen(s: Session, w: World) {
    Resumable(MetaOf(s, w), s.opts.chunkSize) && MetaOf(s, w).fileSize == |s.opts.file|
  }

  /** What `start()` resolves or rejects with, and the world afterwards. */
  datatype Exchange = Exchange(result: Result<Option<Response>, UploadError>, world: World)

  /**
   * `start()`: refuse a finished session; resume when the checkpoint is
   * resumable and its file size is the file's, upload afresh otherwise; on
   * success erase the checkpoint and return the last accepted response.
   */
  function StartSpec(s: Session, finished: bool, w: World): Exchange {
    if finished then Exchange(Failure(UploadAlreadyFinished), w)
    else
      var p := if ResumeChosen(s, w) then Resume(s, w) else Fresh(s, w);
      match p.outcome
      case Pass => Exchange(Success(p.world.lastResult), p.world.(stored := None))
      case Fail(e) => Exchange(Failure(e), p.world)
  }

  /** `start()` on a finished session fails and touches nothing: no request, no storage change. */
  lemma FinishedSessionRefuses(s: Session, w: World)
    ensures StartSpec(s, true, w) == Exchange(Failure(UploadAlreadyFinished), w)
  {
  }

  /** A successful `start()` leaves no checkpoint behind. */
  lemma SuccessErasesCheckpoint(s: Session, finished: bool, w: World)
    ensures StartSpec(s, finished, w).result.Success? ==> StartSpec(s, finished, w).world.stored == None && !finished
  {
  }

  // --------------------------------------------------- what a session does

  /** The progress reports of a run that uploads every chunk from `index` on. */
  function Reports(s: Session, index: nat): seq<Progress>
    decreases Total(s) - index
  {
    if index >= Total(s) then []
    else [ReportAt(s, index, |ChunkAt(s.opts.file, s.opts.chunkSize, index)|)] + Reports(s, index + 1)
  }

  /**
   * Those reports name the chunks from `index` on in order, each reporting the
   * bytes up to its chunk's end as uploaded, the last one the whole file.
   */
  lemma {:induction false} ReportsCoverFile(s: Session, index: nat)
    requires index <= Total(s)
    ensures var r := Reports(s, index);
      && |r| == Total(s) - index
      && (forall k :: 0 <= k < |r| ==>
            && r[k].chunkIndex == index + k && r[k].totalBytes == |s.opts.file|
            && r[k].uploadedBytes == ChunkEnd(|s.opts.file|, s.opts.chunkSize, index + k))
      && (r != [] ==> r[|r| - 1].uploadedBytes == |s.opts.file|)
    decreases Total(s) - index
  {
    if index < Total(s) {
      ChunkInside(s.opts.file, s.opts.chunkSize, index);
      ReportsCoverFile(s, index + 1);
      var r, rest := Reports(s, index), Reports(s, index + 1);
      forall k | 1 <= k < |r|
        ensures r[k] == rest[k - 1] && index + k == (index + 1) + (k - 1)
      {
      }
      if rest == [] {
        TotalChunksIsCeiling(|s.opts.file|, s.opts.chunkSize);
        assert index + 1 == Total(s);
        assert (index + 1) * s.opts.chunkSize == index * s.opts.chunkSize + s.opts.chunkSize;
      }
    }
  }

  /** Whether verdict `v` for chunk `ch` in world `w` is what `uploadChunk` answers: never `false`; on acceptance the chunk recorded and reported; on a throw the checkpoint entry and the progress as before. */
  predicate RecordsChunk(s: Session, w: World, ch: Chunk, v: Verdict<World, UploadError>) {
    && !v.Halt?
    && (v.Continue? ==>
          && v.world.stored == Some(WithChecksum(MetaOf(s, w), ch.index, ch.checksum, ch.state))
          && v.world.progress == w.progress + [ReportAt(s, ch.index, |ch.data|)])
    && (v.Throw? ==> v.world.stored == w.stored && v.world.progress == w.progress)
  }

  /** A handler that answers like `uploadChunk` on every world and chunk. */
  ghost predicate RecordsChunks(s: Session, fn: (World, Chunk) -> Verdict<World, UploadError>) {
    forall w, ch :: RecordsChunk(s, w, ch, fn(w, ch))
  }

  /** The upload handler is such a handler. */
  lemma UploadHandlerRecords(s: Session)
    ensures RecordsChunks(s, UploadHandler(s))
  {
    forall w, ch ensures RecordsChunk(s, w, ch, UploadHandler(s)(w, ch)) {
      assert UploadHandler(s)(w, ch) == UploadChunk(s, w, ch);
    }
  }

  /** A resolved upload walk from `index` adds exactly the reports of the chunks from `index` on. */
  lemma {:induction false} UploadWalkProgress(s: Session, fn: (World, Chunk) -> Verdict<World, UploadError>, w: World,
                                            fed: seq<byte>, index: nat)
    requires RecordsChunks(s, fn)
    requires index <= Total(s)
    ensures var o := Walk(Src(s), fn, w, fed, index, None).outcome;
      o.Finished? ==> o.world.progress == w.progress + Reports(s, index)
    decreases Total(s) - index
  {
    if !AtEnd(Src(s), index, None) {
      var ch := NextChunk(Src(s), fed, index);
      var v := fn(w, ch);
      assert RecordsChunk(s, w, ch, v);
      if v.Continue? {
        UploadWalkProgress(s, fn, v.world, ch.state, index + 1);
        assert Walk(Src(s), fn, w, fed, index, None).outcome == Walk(Src(s), fn, v.world, ch.state, index + 1, None).outcome;
        AppendReport(s, index, w.progress);
      }
    }
  }

  /** Reporting chunk `index` and then the chunks after it is reporting the chunks from `index` on. */
  lemma AppendReport(s: Session, index: nat, p: seq<Progress>)
    requires index < Total(s)
    ensures p + Reports(s, index) == (p + [ReportAt(s, index, |ChunkAt(s.opts.file, s.opts.chunkSize, index)|)]) + Reports(s, index + 1)
  {
    var r, rest := ReportAt(s, index, |ChunkAt(s.opts.file, s.opts.chunkSize, index)|), Reports(s, index + 1);
    assert Reports(s, index) == [r] + rest;
    assert p + ([r] + rest) == (p + [r]) + rest;
  }

  /** The record the library writes for chunk `j`: the digest of, and the hasher state after, the file up to the chunk's end. */
  function Expected(s: Session, j: nat): ChunkRecord {
    var bytes := Prefix(s.opts.file, ChunkEnd(|s.opts.file|, s.opts.chunkSize, j));
    ChunkRecord(HexDigest(s.md5, bytes), bytes)
  }

  /**
   * A checkpoint entry is faithful to the session's file when it does not
   * belong to this chunk size and file size, or when every record in it is the
   * one the library writes for that index.
   */
  ghost predicate Faithful(s: Session, stored: Option<Meta>) {
    stored.Some? && stored.value.chunkSize == s.opts.chunkSize && stored.value.fileSize == |s.opts.file| ==>
      forall j :: RecordAt(stored.value, j).Some? ==> RecordAt(stored.value, j) == Some(Expected(s, j))
  }

  lemma FaithfulAfterRecord(s: Session, w: World, j: nat)
    requires Faithful(s, w.stored)
    ensures Faithful(s, Some(WithChecksum(MetaOf(s, w), j, Expected(s, j).checksum, Expected(s, j).state)))
  {
    var m := MetaOf(s, w);
    var m' := WithChecksum(m, j, Expected(s, j).checksum, Expected(s, j).state);
    ReadBackChecksum(m, j, Expected(s, j).checksum, Expected(s, j).state);
    if m'.chunkSize == s.opts.chunkSize && m'.fileSize == |s.opts.file| {
      forall i | RecordAt(m', i).Some?
        ensures RecordAt(m', i) == Some(Expected(s, i))
      {
        if i != j {
          assert RecordAt(m, i) == RecordAt(m', i);
        }
      }
    }
  }

  /** The chunk after the bytes before chunk `index` carries that chunk's expected record. */
  lemma NextChunkIsExpected(s: Session, fed: seq<byte>, index: nat)
    requires fed == Prefix(s.opts.file, index * s.opts.chunkSize)
    ensures NextChunk(Src(s), fed, index).checksum == Expected(s, index).checksum
    ensures NextChunk(Src(s), fed, index).state == Expected(s, index).state
    ensures NextChunk(Src(s), fed, index).state == Prefix(s.opts.file, (index + 1) * s.opts.chunkSize)
  {
    NextChunkState(Src(s), fed, index);
  }

  /**
   * An upload walk that starts from the bytes before chunk `index` keeps the
   * checkpoint faithful: every record it writes is the expected one, and once
   * it resolves, every chunk from `index` on has its expected record.
   */
  lemma {:induction false} UploadWalkFaithful(s: Session, fn: (World, Chunk) -> Verdict<World, UploadError>, w: World,
                                            fed: seq<byte>, index: nat)
    requires RecordsChunks(s, fn)
    requires index <= Total(s)
    requires fed == Prefix(s.opts.file, index * s.opts.chunkSize)
    requires Faithful(s, w.stored)
    ensures var o := Walk(Src(s), fn, w, fed, index, None).outcome;
      && !o.StateMissing?
      && Faithful(s, o.world.stored)
      && (o.Finished? ==> forall j :: index <= j < Total(s) ==> RecordAt(MetaOf(s, o.world), j) == Some(Expected(s, j)))
    decreases Total(s) - index
  {
    if !AtEnd(Src(s), index, None) {
      var ch := NextChunk(Src(s), fed, index);
      var v := fn(w, ch);
      assert RecordsChunk(s, w, ch, v);
      UploadStepFaithful(s, fn, w, fed, index);
      NextChunkIsExpected(s, fed, index);
      if v.Continue? {
        UploadWalkFaithful(s, fn, v.world, ch.state, index + 1);
        var o := Walk(Src(s), fn, v.world, ch.state, index + 1, None).outcome;
        assert Walk(Src(s), fn, w, fed, index, None).outcome == o;
        if o.Finished? {
          FinishedKeepsStep(s, fn, v.world, ch.state, index);
        }
      }
    }
  }

  /** The record a step wrote at `index` survives the rest of a walk that resolves with every later record expected. */
  lemma FinishedKeepsStep(s: Session, fn: (World, Chunk) -> Verdict<World, UploadError>, w: World,
                          fed: seq<byte>, index: nat)
    requires RecordsChunks(s, fn)
    requires index < Total(s)
    requires RecordAt(MetaOf(s, w), index) == Some(Expected(s, index))
    requires var o := Walk(Src(s), fn, w, fed, index + 1, None).outcome;
      o.Finished? && forall j :: index + 1 <= j < Total(s) ==> RecordAt(MetaOf(s, o.world), j) == Some(Expected(s, j))
    ensures var o := Walk(Src(s), fn, w, fed, index + 1, None).outcome;
      forall j :: index <= j < Total(s) ==> RecordAt(MetaOf(s, o.world), j) == Some(Expected(s, j))
  {
    UploadWalkKeepsEarlier(s, fn, w, fed, index + 1, index);
  }

  /** One accepted chunk writes its expected record and keeps the checkpoint faithful. */
  lemma UploadStepFaithful(s: Session, fn: (World, Chunk) -> Verdict<World, UploadError>, w: World,
                           fed: seq<byte>, index: nat)
    requires RecordsChunks(s, fn)
    requires fed == Prefix(s.opts.file, index * s.opts.chunkSize)
    requires Faithful(s, w.stored)
    ensures var ch := NextChunk(Src(s), fed, index);
      var v := fn(w, ch);
      && Faithful(s, v.world.stored)
      && (v.Continue? ==> RecordAt(MetaOf(s, v.world), index) == Some(Expected(s, index)))
  {
    var ch := NextChunk(Src(s), fed, index);
    assert RecordsChunk(s, w, ch, fn(w, ch));
    NextChunkIsExpected(s, fed, index);
    FaithfulAfterRecord(s, w, index);
  }

  /** An upload walk from `index` leaves the records of earlier indices alone. */
  lemma {:induction false} UploadWalkKeepsEarlier(s: Session, fn: (World, Chunk) -> Verdict<World, UploadError>, w: World,
                                            fed: seq<byte>, index: nat, j: nat)
    requires RecordsChunks(s, fn)
    requires index <= Total(s) && j < index
    ensures var o := Walk(Src(s), fn, w, fed, index, None).outcome;
      o.Finished? || o.Failed? ==> RecordAt(MetaOf(s, o.world), j) == RecordAt(MetaOf(s, w), j)
    decreases Total(s) - index
  {
    if !AtEnd(Src(s), index, None) {
      var ch := NextChunk(Src(s), fed, index);
      var v := fn(w, ch);
      assert RecordsChunk(s, w, ch, v);
      if v.Continue? {
        ReadBackChecksum(MetaOf(s, w), index, ch.checksum, ch.state);
        UploadWalkKeepsEarlier(s, fn, v.world, ch.state, index + 1, j);
      }
    }
  }

  /**
   * A validation walk over [index, end): if it resolves, nothing changed and
   * every chunk's digest equals the recorded one; if it rejects, either the
   * digest differed and the checkpoint is erased, or a record was missing and
   * nothing changed.
   */
  lemma {:induction false} ValidateWalk(s: Session, w: World, fed: seq<byte>, index: nat, end: nat)
    requires index <= end <= Total(s)
    ensures var r := Walk(Src(s), ValidateHandler(s), w, fed, index, Some(end));
      && !r.outcome.StateMissing?
      && (r.outcome.Finished? ==>
            && r.outcome.world == w && |r.trace| == end - index
            && forall k :: 0 <= k < |r.trace| ==> ChecksumAt(MetaOf(s, w), index + k) == Some(r.trace[k].checksum))
      && (r.outcome.Failed? ==>
            || (r.outcome.error.DifferentChunk? && r.outcome.world == w.(stored := None))
            || (r.outcome.error == MissingRecord && r.outcome.world == w))
    decreases Total(s) - index
  {
    if !AtEnd(Src(s), index, Some(end)) {
      var ch := NextChunk(Src(s), fed, index);
      var v := ValidateChunk(s, w, ch);
      assert ValidateHandler(s)(w, ch) == v;
      if v.Continue? {
        ValidateWalk(s, w, ch.state, index + 1, end);
        var rest := Walk(Src(s), ValidateHandler(s), w, ch.state, index + 1, Some(end));
        var t := Walk(Src(s), ValidateHandler(s), w, fed, index, Some(end)).trace;
        if rest.outcome.Finished? {
          assert t == [ch] + rest.trace;
          forall k | 1 <= k < |t|
            ensures t[k] == rest.trace[k - 1] && index + k == (index + 1) + (k - 1)
          {
          }
        }
      }
    } else {
      assert index == end;
    }
  }

  /**
   * Revalidation of a faithful checkpoint that has a record at every index of
   * the window, starting from the bytes before the window, always passes.
   */
  lemma {:induction false} FaithfulWindowValidates(s: Session, w: World, fed: seq<byte>, index: nat, end: nat)
    requires index <= end <= Total(s)
    requires fed == Prefix(s.opts.file, index * s.opts.chunkSize)
    requires Faithful(s, w.stored)
    requires MetaOf(s, w).chunkSize == s.opts.chunkSize && MetaOf(s, w).fileSize == |s.opts.file|
    requires forall j :: index <= j < end ==> RecordAt(MetaOf(s, w), j).Some?
    ensures Walk(Src(s), ValidateHandler(s), w, fed, index, Some(end)).outcome == Finished(w)
    decreases Total(s) - index
  {
    if !AtEnd(Src(s), index, Some(end)) {
      var ch := NextChunk(Src(s), fed, index);
      NextChunkIsExpected(s, fed, index);
      assert RecordAt(MetaOf(s, w), index).Some?;
      assert RecordAt(MetaOf(s, w), index) == Some(Expected(s, index));
      assert ValidateHandler(s)(w, ch) == ValidateChunk(s, w, ch) == Continue(w);
      FaithfulWindowValidates(s, w, ch.state, index + 1, end);
    }
  }

  // ------------------------------------------------------ session theorems

  /** A fresh upload that resolves reports every chunk, in order. */
  lemma FreshReportsEveryChunk(s: Session, w: World)
    ensures Fresh(s, w).outcome.Pass? ==> Fresh(s, w).world.progress == w.progress + Reports(s, 0)
  {
    UploadHandlerRecords(s);
    UploadWalkProgress(s, UploadHandler(s), w, [], 0);
  }

  /** An upload from `resumeIndex` that resolves reports every chunk from there on, in order. */
  lemma UploadFromReportsRest(s: Session, w: World, resumeIndex: nat)
    requires resumeIndex <= Total(s)
    ensures var p := UploadFrom(s, w, resumeIndex);
      p.outcome.Pass? ==> p.world.progress == w.progress + Reports(s, resumeIndex)
  {
    if resumeIndex == 0 {
      UploadHandlerRecords(s);
      UploadWalkProgress(s, UploadHandler(s), w, [], 0);
    } else {
      match StateAt(MetaOf(s, w), resumeIndex - 1)
      case None =>
      case Some(saved) =>
        UploadHandlerRecords(s);
        UploadWalkProgress(s, UploadHandler(s), w, saved, resumeIndex);
    }
  }

  /** A fresh upload keeps the checkpoint faithful and, when it resolves, has recorded every chunk. */
  lemma FreshKeepsFaithful(s: Session, w: World)
    requires Faithful(s, w.stored)
    ensures var p := Fresh(s, w);
      && Faithful(s, p.world.stored)
      && (p.outcome.Pass? ==> forall j :: 0 <= j < Total(s) ==> RecordAt(MetaOf(s, p.world), j) == Some(Expected(s, j)))
  {
    assert [] == Prefix(s.opts.file, 0 * s.opts.chunkSize);
    UploadHandlerRecords(s);
    UploadWalkFaithful(s, UploadHandler(s), w, [], 0);
  }

  /** A faithful record for this session's chunk size and file size holds the expected record at every index it has. */
  lemma FaithfulRecordAt(s: Session, w: World, j: nat)
    requires Faithful(s, w.stored)
    requires MetaOf(s, w).chunkSize == s.opts.chunkSize && MetaOf(s, w).fileSize == |s.opts.file|
    requires RecordAt(MetaOf(s, w), j).Some?
    ensures RecordAt(MetaOf(s, w), j) == Some(Expected(s, j))
    ensures StateAt(MetaOf(s, w), j) == Some(Prefix(s.opts.file, (j + 1) * s.opts.chunkSize))
  {
    PrefixThroughChunk(s.opts.file, s.opts.chunkSize, j);
  }

  /** Uploading from a resume index over a faithful checkpoint keeps it faithful. */
  lemma UploadFromKeepsFaithful(s: Session, w: World, resumeIndex: nat)
    requires resumeIndex <= Total(s)
    requires Faithful(s, w.stored)
    requires MetaOf(s, w).chunkSize == s.opts.chunkSize && MetaOf(s, w).fileSize == |s.opts.file|
    ensures Faithful(s, UploadFrom(s, w, resumeIndex).world.stored)
  {
    if resumeIndex == 0 {
      assert [] == Prefix(s.opts.file, 0 * s.opts.chunkSize);
      UploadHandlerRecords(s);
      UploadWalkFaithful(s, UploadHandler(s), w, [], 0);
    } else {
      match StateAt(MetaOf(s, w), resumeIndex - 1)
      case None =>
      case Some(saved) =>
        FaithfulRecordAt(s, w, resumeIndex - 1);
        UploadHandlerRecords(s);
        UploadWalkFaithful(s, UploadHandler(s), w, saved, resumeIndex);
    }
  }

  /** Revalidation as `resumeUpload` runs it, on the world after the probe. */
  lemma ValidateOutcome(s: Session, w: World, resumeIndex: nat)
    requires resumeIndex <= Total(s)
    ensures var r := Validate(s, w, resumeIndex);
      && (r.outcome.Finished? ==>
            && r.outcome.world == w
            && |r.trace| == resumeIndex - WindowStart(resumeIndex)
            && forall k :: 0 <= k < |r.trace| ==>
                 ChecksumAt(MetaOf(s, w), WindowStart(resumeIndex) + k) == Some(r.trace[k].checksum))
      && (r.outcome.Failed? ==> r.outcome.world == w || r.outcome.world == w.(stored := None))
  {
    var start := WindowStart(resumeIndex);
    if start == 0 {
      ValidateWalk(s, w, [], 0, resumeIndex);
      assert Validate(s, w, resumeIndex) == Walk(Src(s), ValidateHandler(s), w, [], 0, Some(resumeIndex));
    } else {
      match StateAt(MetaOf(s, w), start - 1)
      case None =>
        assert Validate(s, w, resumeIndex).outcome == StateMissing;
      case Some(saved) =>
        ValidateWalk(s, w, saved, start, resumeIndex);
        assert Validate(s, w, resumeIndex) == Walk(Src(s), ValidateHandler(s), w, saved, start, Some(resumeIndex));
    }
  }

  /** A resume over a faithful checkpoint leaves it faithful, whichever way it goes. */
  lemma ResumeKeepsFaithful(s: Session, w: World)
    requires Faithful(s, w.stored)
    requires ResumeChosen(s, w)
    ensures Faithful(s, Resume(s, w).world.stored)
  {
    var (probe, w1) := Probe(s, w);
    if probe.Success? {
      var ri := ResumePoint(ResumeIndex(MetaOf(s, w)), probe.value);
      if ri <= Total(s) {
        ValidateOutcome(s, w1, ri);
        match Validate(s, w1, ri).outcome
        case Finished(w2) => UploadFromKeepsFaithful(s, w2, ri);
        case Failed(w2, _) => FreshKeepsFaithful(s, w2);
        case StateMissing => FreshKeepsFaithful(s, w1);
      }
    }
  }

  /**
   * `start()` keeps the checkpoint faithful: every record it leaves behind is
   * the digest and hasher state of the file up to that chunk's end, so a later
   * resume restores the hasher exactly.
   */
  lemma StartKeepsFaithful(s: Session, finished: bool, w: World)
    requires Faithful(s, w.stored)
    ensures Faithful(s, StartSpec(s, finished, w).world.stored)
  {
    if !finished {
      if ResumeChosen(s, w) {
        ResumeKeepsFaithful(s, w);
      } else {
        FreshKeepsFaithful(s, w);
      }
    }
  }

  /**
   * `start()` resolves only after reporting every chunk from some index on, in
   * order, up to the end of the file; that index is 0 unless the session
   * resumed, and then it is at most both the local record count and the
   * number of chunks the service reported holding.
   */
  lemma StartReportsEveryChunk(s: Session, w: World)
    ensures var e := StartSpec(s, false, w);
      e.result.Success? ==>
        exists ri: nat :: ri <= Total(s) && e.world.progress == w.progress + Reports(s, ri)
          && (ri > 0 ==> ResumeChosen(s, w) && ri <= ResumeIndex(MetaOf(s, w))
                         && Probe(s, w).0.Success? && ri <= Probe(s, w).0.value)
  {
    var e := StartSpec(s, false, w);
    if e.result.Success? {
      if ResumeChosen(s, w) {
        var (probe, w1) := Probe(s, w);
        var ri := ResumePoint(ResumeIndex(MetaOf(s, w)), probe.value);
        ValidateOutcome(s, w1, ri);
        match Validate(s, w1, ri).outcome
        case Finished(w2) =>
          UploadFromReportsRest(s, w2, ri);
          assert e.world.progress == w.progress + Reports(s, ri);
        case Failed(w2, _) =>
          FreshReportsEveryChunk(s, w2);
          assert e.world.progress == w.progress + Reports(s, 0);
        case StateMissing =>
          FreshReportsEveryChunk(s, w1);
          assert e.world.progress == w.progress + Reports(s, 0);
      } else {
        FreshReportsEveryChunk(s, w);
        assert e.world.progress == w.progress + Reports(s, 0);
      }
    }
  }

  /** Every index below the record's length has an entry. */
  predicate Dense(m: Meta) {
    forall j :: 0 <= j < |m.checksums| ==> m.checksums[j].Some?
  }

  /**
   * A faithful checkpoint without holes passes revalidation, so `resumeUpload`
   * goes on from the resume index and never discards the checkpoint.
   */
  lemma FaithfulCheckpointResumes(s: Session, w: World)
    requires Faithful(s, w.stored) && ResumeChosen(s, w) && Dense(MetaOf(s, w))
    requires Probe(s, w).0.Success?
    requires ResumePoint(ResumeIndex(MetaOf(s, w)), Probe(s, w).0.value) <= Total(s)
    ensures var w1 := Probe(s, w).1;
      var ri := ResumePoint(ResumeIndex(MetaOf(s, w)), Probe(s, w).0.value);
      Validate(s, w1, ri).outcome == Finished(w1) && Resume(s, w) == UploadFrom(s, w1, ri)
  {
    var w1 := Probe(s, w).1;
    var ri := ResumePoint(ResumeIndex(MetaOf(s, w)), Probe(s, w).0.value);
    var start := WindowStart(ri);
    assert MetaOf(s, w1) == MetaOf(s, w);
    forall j | start <= j < ri
      ensures RecordAt(MetaOf(s, w1), j).Some?
    {
    }
    if start == 0 {
      assert [] == Prefix(s.opts.file, 0 * s.opts.chunkSize);
      FaithfulWindowValidates(s, w1, [], 0, ri);
    } else {
      assert RecordAt(MetaOf(s, w1), start - 1).Some?;
      FaithfulRecordAt(s, w1, start - 1);
      FaithfulWindowValidates(s, w1, Prefix(s.opts.file, start * s.opts.chunkSize), start, ri);
    }
  }

  /**
   * When revalidation finds a digest that differs from the recorded one, the
   * checkpoint is erased and the session uploads afresh from chunk 0.
   */
  lemma MismatchRestartsFromZero(s: Session, w: World)
    requires Probe(s, w).0.Success?
    requires ResumePoint(ResumeIndex(MetaOf(s, w)), Probe(s, w).0.value) <= Total(s)
    requires var ri := ResumePoint(ResumeIndex(MetaOf(s, w)), Probe(s, w).0.value);
      var o := Validate(s, Probe(s, w).1, ri).outcome;
      o.Failed? && o.error.DifferentChunk?
    ensures Resume(s, w) == Fresh(s, Probe(s, w).1.(stored := None))
  {
    var w1 := Probe(s, w).1;
    var ri := ResumePoint(ResumeIndex(MetaOf(s, w)), Probe(s, w).0.value);
    ValidateOutcome(s, w1, ri);
    var start := WindowStart(ri);
    if start == 0 {
      ValidateWalk(s, w1, [], 0, ri);
    } else {
      ValidateWalk(s, w1, StateAt(MetaOf(s, w1), start - 1).value, start, ri);
    }
  }

  // ------------------------------------------------------- a whole upload

  /** A chunk whose first attempt is accepted: one request, and that response kept. */
  lemma ChunkAccepted(s: Session, w: World, ch: Chunk, res: Response)
    requires w.network != [] && w.network[0] == Some(res)
    requires res.status in CHUNK_STATUSES
    requires CheckResponseHeaders(res.headers, ch.index, LastByte(s, ch), ch.checksum) == Pass
    ensures var v := UploadChunk(s, w, ch);
      v.Continue? && v.world.network == w.network[1..] && |v.world.sent| == |w.sent| + 1 && v.world.lastResult == Some(res)
  {
    var end := LastByte(s, ch);
    FirstFinalDecides(s, w.network, ch.index, end, ch.checksum, s.opts.retries, 0);
  }

  /** A chunk whose first attempt meets a 503 and whose retry is accepted. */
  lemma RetriedChunkAccepted(s: Session, w: World, ch: Chunk, h503: map<string, string>, res: Response)
    requires s.opts.retries >= 1
    requires |w.network| >= 2 && w.network[0] == Some(Response(503, h503)) && w.network[1] == Some(res)
    requires res.status in CHUNK_STATUSES
    requires CheckResponseHeaders(res.headers, ch.index, LastByte(s, ch), ch.checksum) == Pass
    ensures var v := UploadChunk(s, w, ch);
      v.Continue? && v.world.network == w.network[2..] && |v.world.sent| == |w.sent| + 2 && v.world.lastResult == Some(res)
  {
    var end := LastByte(s, ch);
    TransientFailureRetried(s, w.network, ch.index, end, ch.checksum, s.opts.retries, h503, res);
  }

  /**
   * The upload handler on the chunk after the bytes before chunk `index`, when
   * the chunk's first attempt is accepted (`retried` false) or meets a 503 and
   * its retry is accepted (`retried` true): it goes on, with the response kept
   * and the hasher state at the chunk's end.
   */
  lemma UploadStepAccepted(s: Session, w: World, fed: seq<byte>, index: nat, res: Response, retried: bool)
    returns (w': World)
    requires fed == Prefix(s.opts.file, index * s.opts.chunkSize)
    requires retried ==> s.opts.retries >= 1
    requires if retried then |w.network| >= 2 && w.network[0] == Some(Response(503, map[])) && w.network[1] == Some(res)
             else w.network != [] && w.network[0] == Some(res)
    requires res.status in CHUNK_STATUSES
    requires var len := |ChunkAt(s.opts.file, s.opts.chunkSize, index)|;
      CheckResponseHeaders(res.headers, index, index * s.opts.chunkSize + len - 1, Expected(s, index).checksum) == Pass
    ensures UploadChunk(s, w, NextChunk(Src(s), fed, index)) == Continue(w')
    ensures NextChunk(Src(s), fed, index).state == Prefix(s.opts.file, index * s.opts.chunkSize + s.opts.chunkSize)
    ensures w'.network == w.network[if retried then 2 else 1..]
    ensures |w'.sent| == |w.sent| + (if retried then 2 else 1)
    ensures w'.lastResult == Some(res)
  {
    var ch := NextChunk(Src(s), fed, index);
    NextChunkIsExpected(s, fed, index);
    if retried {
      RetriedChunkAccepted(s, w, ch, map[], res);
    } else {
      ChunkAccepted(s, w, ch, res);
    }
    w' := UploadChunk(s, w, ch).world;
  }

  /** In a file of three chunks, chunk 2 runs to the end of the file and its expected digest is the whole file's. */
  lemma LastOfThreeChunks(s: Session)
    requires Total(s) == 3
    ensures 2 * s.opts.chunkSize + |ChunkAt(s.opts.file, s.opts.chunkSize, 2)| - 1 == |s.opts.file| - 1
    ensures Expected(s, 2).checksum == HexDigest(s.md5, s.opts.file)
  {
    var c: nat, f := s.opts.chunkSize, s.opts.file;
    TotalChunksIsCeiling(|f|, s.opts.chunkSize);
    ChunkInside(f, s.opts.chunkSize, 2);
    PrefixThroughChunk(f, s.opts.chunkSize, 2);
    assert ChunkEnd(|f|, c, 2) == |f|;
  }

  /** Chunks 0 and 1 of a fresh upload, each answered 308 on its first attempt. */
  lemma FirstTwoChunksAccepted(s: Session, w: World) returns (w1: World, w2: World)
    requires 2 < Total(s)
    requires |w.network| >= 2 && w.network[0] == Some(Response(308, map[])) && w.network[1] == Some(Response(308, map[]))
    ensures UploadChunk(s, w, NextChunk(Src(s), [], 0)) == Continue(w1)
    ensures NextChunk(Src(s), [], 0).state == Prefix(s.opts.file, s.opts.chunkSize)
    ensures UploadChunk(s, w1, NextChunk(Src(s), Prefix(s.opts.file, s.opts.chunkSize), 1)) == Continue(w2)
    ensures NextChunk(Src(s), Prefix(s.opts.file, s.opts.chunkSize), 1).state == Prefix(s.opts.file, 2 * s.opts.chunkSize)
    ensures w2.network == w.network[2..] && |w2.sent| == |w.sent| + 2
  {
    var c: nat, f := s.opts.chunkSize, s.opts.file;
    assert [] == Prefix(f, 0 * c);
    var r308 := Response(308, map[]);
    w1 := UploadStepAccepted(s, w, [], 0, r308, false);
    w2 := UploadStepAccepted(s, w1, Prefix(f, c), 1, r308, false);
  }

  /**
   * The walk of a fresh upload of a file of three chunks, where chunks 0 and 1
   * are answered 308 and chunk 2 first meets a 503 and then an accepted final
   * response: it resolves after four requests, keeping that response.
   */
  lemma ThreeChunkWalk(s: Session, w: World, res: Response) returns (w3: World)
    requires Total(s) == 3 && s.opts.retries >= 1
    requires w.network == [Some(Response(308, map[])), Some(Response(308, map[])), Some(Response(503, map[])), Some(res)]
    requires res.status in CHUNK_STATUSES
    requires CheckResponseHeaders(res.headers, 2, |s.opts.file| - 1, HexDigest(s.md5, s.opts.file)) == Pass
    ensures Walk(Src(s), UploadHandler(s), w, [], 0, None).outcome == Finished(w3)
    ensures w3.network == [] && |w3.sent| == |w.sent| + 4 && w3.lastResult == Some(res)
  {
    var c: nat, f := s.opts.chunkSize, s.opts.file;
    LastOfThreeChunks(s);
    var w1, w2 := FirstTwoChunksAccepted(s, w);
    w3 := UploadStepAccepted(s, w2, Prefix(f, 2 * c), 2, res, true);
    assert UploadHandler(s)(w, NextChunk(Src(s), [], 0)) == Continue(w1);
    assert UploadHandler(s)(w1, NextChunk(Src(s), Prefix(f, c), 1)) == Continue(w2);
    assert UploadHandler(s)(w2, NextChunk(Src(s), Prefix(f, 2 * c), 2)) == Continue(w3);
    WalkOfThreeChunks(Src(s), UploadHandler(s), w, w1, w2, w3, Prefix(f, c), Prefix(f, 2 * c));
  }

  /** The same upload as a whole: `processor.run(uploadChunk)` resolves. */
  lemma ThreeChunkUpload(s: Session, w: World, res: Response) returns (w3: World)
    requires Total(s) == 3 && s.opts.retries >= 1
    requires w.network == [Some(Response(308, map[])), Some(Response(308, map[])), Some(Response(503, map[])), Some(res)]
    requires res.status in CHUNK_STATUSES
    requires CheckResponseHeaders(res.headers, 2, |s.opts.file| - 1, HexDigest(s.md5, s.opts.file)) == Pass
    ensures Fresh(s, w) == Phase(Pass, w3)
    ensures w3.network == [] && |w3.sent| == |w.sent| + 4 && w3.lastResult == Some(res)
  {
    w3 := ThreeChunkWalk(s, w, res);
  }

  /** The final response of a whole-file upload whose service reports the file's md5 in `x-goog-hash`. */
  function GoogAck(s: Session): map<string, string> {
    map["x-goog-hash" := "md5=" + Base64Encode(s.md5(s.opts.file)),
        "x-goog-stored-content-length" := NatToString(|s.opts.file|)]
  }

  /**
   * A 15 MiB file in three 5 MiB chunks, uploaded from scratch: chunks 0 and 1
   * are answered 308, chunk 2 first meets a 503 and then a 200 whose digest
   * header matches. `start()` resolves with that 200 after four requests,
   * having reported every chunk and recorded every chunk's digest, the last
   * report covering the whole file, and the checkpoint is erased.
   */
  lemma FifteenMebibyteUpload(s: Session, w: World)
    requires s.opts.chunkSize == MIN_CHUNK_SIZE && |s.opts.file| == 3 * MIN_CHUNK_SIZE && s.opts.retries >= 1
    requires w.stored == None
    requires w.network == [Some(Response(308, map[])), Some(Response(308, map[])),
                           Some(Response(503, map[])), Some(Response(200, GoogAck(s)))]
    ensures var e := StartSpec(s, false, w);
      && e.result == Success(Some(Response(200, GoogAck(s))))
      && e.world.stored == None && e.world.network == [] && |e.world.sent| == |w.sent| + 4
      && e.world.progress == w.progress + Reports(s, 0) && |Reports(s, 0)| == 3
      && Reports(s, 0)[2].uploadedBytes == 3 * MIN_CHUNK_SIZE
      && forall j :: 0 <= j < 3 ==> RecordAt(MetaOf(s, Fresh(s, w).world), j) == Some(Expected(s, j))
  {
    assert Total(s) == 3;
    GoogDigestMatchAccepted(2, |s.opts.file| - 1, s.md5(s.opts.file));
    var w3 := ThreeChunkUpload(s, w, Response(200, GoogAck(s)));
    FreshReportsEveryChunk(s, w);
    ReportsCoverFile(s, 0);
    FreshKeepsFaithful(s, w);
  }

  // ------------------------------------------------------------ the class

  class Upload {
    const opts: Config
    const meta: FileMeta
    const processor: FileProcessor
    var lastResult: Option<Response>
    var finished: bool

    /** The checkpoint store and the processor belong to this session's file, id and chunk size. */
    predicate Valid() {
      && meta.id == opts.id && meta.fileSize == |opts.file| && meta.chunkSize == opts.chunkSize
      && processor.file == opts.file && processor.meta == meta
      && processor.chunkSize == opts.chunkSize
    }

    function S(): Session {
      Session(opts, processor.md5)
    }

    /** The constructor after validation: a checkpoint store over `storage` and a processor over the file. */
    constructor (opts: Config, storage: Storage, md5: Md5)
      ensures Valid() && this.opts == opts && meta.storage == storage
      ensures S() == Session(opts, md5)
      ensures fresh(meta) && fresh(processor)
      ensures lastResult == None && !finished
      ensures !processor.paused && processor.unpauseHandlers == []
    {
      this.opts := opts;
      var m := new FileMeta(opts.id, |opts.file|, opts.chunkSize, storage);
      meta := m;
      processor := new FileProcessor(opts.file, m, opts.chunkSize, md5);
      lastResult := None;
      finished := false;
    }

    /** `new Upload(args, allowSmallChunks)`: the options are validated first and an invalid set is refused. */
    static method Create(args: Args, allowSmallChunks: bool, storage: Storage, md5: Md5)
      returns (r: Result<Upload, UploadError>)
      ensures r.Failure? <==> ValidateOptions(args, allowSmallChunks).Failure?
      ensures r.Failure? ==> r.error == ValidateOptions(args, allowSmallChunks).error
      ensures r.Success? ==>
        && fresh(r.value) && r.value.Valid() && r.value.opts == ValidateOptions(args, allowSmallChunks).value
        && r.value.meta.storage == storage && r.value.lastResult == None && !r.value.finished
    {
      var v := ValidateOptions(args, allowSmallChunks);
      if v.Failure? {
        return Failure(v.error);
      }
      var u := new Upload(v.value, storage, md5);
      return Success(u);
    }

    /**
     * `start()` over the given network responses: it computes `StartSpec`
     * from the stored checkpoint entry and the last result, writes the
     * resulting entry back under this session's key and no other, and marks
     * the session finished exactly when it resolves.
     */
    method Start(network: seq<Option<Response>>) returns (r: Result<Option<Response>, UploadError>, world: World)
      requires Valid()
      modifies this, meta.storage, processor
      ensures Exchange(r, world) == StartSpec(S(), old(finished), World(old(meta.Stored()), network, [], [], old(lastResult)))
      ensures meta.Stored() == world.stored && lastResult == world.lastResult
      ensures finished == (old(finished) || r.Success?)
      ensures meta.storage.items - {meta.Key()} == old(meta.storage.items) - {meta.Key()}
      ensures !old(processor.paused) ==> !processor.paused && processor.unpauseHandlers == old(processor.unpauseHandlers)
    {
      var w := World(meta.Stored(), network, [], [], lastResult);
      if finished {
        return Failure(UploadAlreadyFinished), w;
      }
      var resumable := meta.IsResumable();
      var size := meta.GetFileSize();
      var p: Phase;
      if resumable && size == |opts.file| {
        p := ResumeUpload(w);
      } else {
        p := FreshUpload(w);
      }
      lastResult := p.world.lastResult;
      if p.outcome.Pass? {
        meta.Reset();
        finished := true;
        return Success(p.world.lastResult), p.world.(stored := None);
      }
      return Failure(p.outcome.error), p.world;
    }

    /** `processor.run(uploadChunk)`, writing the checkpoint entry back afterwards. */
    method FreshUpload(w: World) returns (p: Phase)
      requires Valid() && meta.Stored() == w.stored
      modifies meta.storage, processor
      ensures p == Fresh(S(), w) && meta.Stored() == p.world.stored
      ensures meta.storage.items - {meta.Key()} == old(meta.storage.items) - {meta.Key()}
      ensures !old(processor.paused) ==> !processor.paused && processor.unpauseHandlers == old(processor.unpauseHandlers)
    {
      var walked := processor.Run(UploadHandler(S()), w, 0, None);
      p := Settle(walked.outcome, w);
      meta.SetMeta(p.world.stored);
    }

    /** `resumeUpload`, writing the checkpoint entry back after each run. */
    method ResumeUpload(w: World) returns (p: Phase)
      requires Valid() && meta.Stored() == w.stored
      modifies meta.storage, processor
      ensures p == Resume(S(), w) && meta.Stored() == p.world.stored
      ensures meta.storage.items - {meta.Key()} == old(meta.storage.items) - {meta.Key()}
      ensures !old(processor.paused) ==> !processor.paused && processor.unpauseHandlers == old(processor.unpauseHandlers)
    {
      var local := meta.GetResumeIndex();
      var (probe, w1) := Probe(S(), w);
      if probe.Failure? {
        return Phase(Fail(probe.error), w1);
      }
      var ri := ResumePoint(local, probe.value);
      if ri > processor.Total() {
        return Phase(Fail(ResumeBeyondFile(ri)), w1);
      }
      p := ResumeFrom(w1, ri);
    }

    /** The validate-then-upload part of `resumeUpload`. */
    method ResumeFrom(w1: World, ri: nat) returns (p: Phase)
      requires Valid() && meta.Stored() == w1.stored && ri <= Total(S())
      modifies meta.storage, processor
      ensures p == ResumeAt(S(), w1, ri) && meta.Stored() == p.world.stored
      ensures meta.storage.items - {meta.Key()} == old(meta.storage.items) - {meta.Key()}
      ensures !old(processor.paused) ==> !processor.paused && processor.unpauseHandlers == old(processor.unpauseHandlers)
    {
      var v := processor.Run(ValidateHandler(S()), w1, WindowStart(ri), Some(ri));
      match v.outcome
      case Finished(w2) =>
        meta.SetMeta(w2.stored);
        p := UploadRest(w2, ri);
      case Failed(w2, _) =>
        meta.SetMeta(w2.stored);
        p := FreshUpload(w2);
      case StateMissing =>
        p := FreshUpload(w1);
    }

    /** `processor.run(uploadChunk, resumeIndex)`, writing the checkpoint entry back afterwards. */
    method UploadRest(w: World, ri: nat) returns (p: Phase)
      requires Valid() && meta.Stored() == w.stored && ri <= Total(S())
      modifies meta.storage, processor
      ensures p == UploadFrom(S(), w, ri) && meta.Stored() == p.world.stored
      ensures meta.storage.items - {meta.Key()} == old(meta.storage.items) - {meta.Key()}
      ensures !old(processor.paused) ==> !processor.paused && processor.unpauseHandlers == old(processor.unpauseHandlers)
    {
      var walked := processor.Run(UploadHandler(S()), w, ri, None);
      p := Settle(walked.outcome, w);
      meta.SetMeta(p.world.stored);
    }

    /** `pause()`: the processor stops before its next chunk. */
    method Pause()
      modifies processor
      ensures processor.paused && processor.unpauseHandlers == old(processor.unpauseHandlers)
    {
      processor.Pause();
    }

    /** `unpause()`: every waiting run is resumed once. */
    method Unpause() returns (resumed: seq<Waiter>)
      modifies processor
      ensures !processor.paused && processor.unpauseHandlers == [] && resumed == old(processor.unpauseHandlers)
    {
      resumed := processor.Unpause();
    }

    /** `cancel()`: pause and erase the checkpoint, so the session is no longer resumable. */
    method Cancel()
      requires Valid()
      modifies processor, meta.storage
      ensures processor.paused && processor.unpauseHandlers == old(processor.unpauseHandlers)
      ensures meta.Stored() == None && !ResumeChosen(S(), World(meta.Stored(), [], [], [], None))
      ensures meta.storage.items == old(meta.storage.items) - {meta.Key()}
    {
      processor.Pause();
      meta.Reset();
    }
  }
}
