/**
 * The chunk processor (src/FileProcessor.js): it walks the file's chunks in
 * order from a start index, feeds each chunk to a rolling MD5 hasher, and hands
 * the chunk, its digest and the hasher state after it to a handler, which says
 * whether to go on. The walk can be paused between chunks.
 *
 * The file is an in-memory byte sequence. A handler is a function from a world
 * value W (whatever the handler reads and changes) and the chunk to a verdict:
 * go on, stop (the handler returned `false`), or throw. `Walk` is the meaning
 * of a run; `FileProcessor.Run` computes it with a loop.
 */
module Processor {
  import opened Wrappers
  import opened Encoding
  import opened Hasher
  import Checkpoint

  type PosNat = n: nat | n > 0 witness 1

  /** What a run reads besides the handler: the file, the chunk size and the digest function. */
  datatype Source = Source(file: seq<byte>, chunkSize: PosNat, md5: Md5)

  // ------------------------------------------------------------------ chunks

  /** `Math.ceil(file.size / chunkSize)`. */
  function TotalChunks(size: nat, chunkSize: PosNat): nat {
    (size + chunkSize - 1) / chunkSize
  }

  /** The chunk count is the least number of chunks that covers the file. */
  lemma TotalChunksIsCeiling(size: nat, chunkSize: PosNat)
    ensures TotalChunks(size, chunkSize) * chunkSize >= size
    ensures TotalChunks(size, chunkSize) > 0 ==> (TotalChunks(size, chunkSize) - 1) * chunkSize < size
    ensures TotalChunks(size, chunkSize) == 0 <==> size == 0
  {
    var n: int, c: int := TotalChunks(size, chunkSize), chunkSize;
    var r := (size + c - 1) % c;
    assert size + c - 1 == n * c + r;
    assert (n - 1) * c == n * c - c;
  }

  /** `file.slice(0, n)`. */
  function Prefix(file: seq<byte>, n: nat): (p: seq<byte>)
    ensures |p| == if n < |file| then n else |file|
  {
    if n < |file| then file[..n] else file
  }

  /** Where chunk `i` ends (exclusive): `i * c + c`, clipped to the file. */
  function ChunkEnd(size: nat, chunkSize: PosNat, i: nat): nat {
    if i * chunkSize + chunkSize < size then i * chunkSize + chunkSize else size
  }

  /** `file.slice(i * c, i * c + c)`: empty when it starts at or past the end of the file. */
  function ChunkAt(file: seq<byte>, chunkSize: PosNat, i: nat): seq<byte> {
    if i * chunkSize >= |file| then [] else file[i * chunkSize .. ChunkEnd(|file|, chunkSize, i)]
  }

  /** Every chunk before the chunk count starts inside the file and holds between 1 and c bytes. */
  lemma ChunkInside(file: seq<byte>, chunkSize: PosNat, i: nat)
    requires i < TotalChunks(|file|, chunkSize)
    ensures i * chunkSize < |file|
    ensures 0 < |ChunkAt(file, chunkSize, i)| <= chunkSize
    ensures ChunkAt(file, chunkSize, i) == file[i * chunkSize .. ChunkEnd(|file|, chunkSize, i)]
    ensures ChunkEnd(|file|, chunkSize, i) == i * chunkSize + |ChunkAt(file, chunkSize, i)|
  {
    TotalChunksIsCeiling(|file|, chunkSize);
    var n := TotalChunks(|file|, chunkSize);
    assert i <= n - 1;
    assert i * chunkSize <= (n - 1) * chunkSize;
  }

  /** Chunks 0 .. k-1 laid end to end. */
  function Concat(file: seq<byte>, chunkSize: PosNat, k: nat): seq<byte> {
    if k == 0 then [] else Concat(file, chunkSize, k - 1) + ChunkAt(file, chunkSize, k - 1)
  }

  /** The first k chunks are exactly the first k * c bytes, clipped: no gap and no overlap. */
  lemma {:induction false} ConcatIsPrefix(file: seq<byte>, chunkSize: PosNat, k: nat)
    ensures Concat(file, chunkSize, k) == Prefix(file, k * chunkSize)
  {
    if k > 0 {
      ConcatIsPrefix(file, chunkSize, k - 1);
      PrefixThroughChunk(file, chunkSize, k - 1);
    }
  }

  /** The chunks 0 .. TotalChunks-1 partition the file. */
  lemma ChunksPartitionFile(file: seq<byte>, chunkSize: PosNat)
    ensures Concat(file, chunkSize, TotalChunks(|file|, chunkSize)) == file
  {
    TotalChunksIsCeiling(|file|, chunkSize);
    ConcatIsPrefix(file, chunkSize, TotalChunks(|file|, chunkSize));
  }

  /** The bytes up to the end of chunk i are the bytes up to its start followed by the chunk. */
  lemma PrefixThroughChunk(file: seq<byte>, chunkSize: PosNat, i: nat)
    ensures Prefix(file, i * chunkSize) + ChunkAt(file, chunkSize, i) == Prefix(file, ChunkEnd(|file|, chunkSize, i))
    ensures ChunkEnd(|file|, chunkSize, i) == if (i + 1) * chunkSize < |file| then (i + 1) * chunkSize else |file|
  {
    assert (i + 1) * chunkSize == i * chunkSize + chunkSize;
    var s := i * chunkSize;
    if s < |file| {
      assert file[..s] + file[s..ChunkEnd(|file|, chunkSize, i)] == file[..ChunkEnd(|file|, chunkSize, i)];
    }
  }

  // -------------------------------------------------------------------- walk

  /** What a run passes to its handler for one index: `fn(checksum, state, index, chunk)`. */
  datatype Chunk = Chunk(checksum: string, state: seq<byte>, index: nat, data: seq<byte>)

  /** A handler's answer: go on to the next index, stop (it returned `false`), or throw. */
  datatype Verdict<W, E> = Continue(world: W) | Halt(world: W) | Throw(world: W, error: E)

  /** How a run ends: it resolves, it rejects with the handler's error, or the saved hasher state could not be read. */
  datatype RunOutcome<W, E> = Finished(world: W) | Failed(world: W, error: E) | StateMissing

  /** A run's outcome and the chunks it handed to the handler, in order. */
  datatype Walked<W, E> = Walked(outcome: RunOutcome<W, E>, trace: seq<Chunk>)

  /** The index at which a walk stops by itself: the chunk count, or the end index if that comes first. */
  function Limit(total: nat, endIndex: Option<nat>): nat {
    if endIndex.Some? && endIndex.value < total then endIndex.value else total
  }

  /** Whether `processIndex(index)` resolves at once: the chunk count or the end index is reached. */
  predicate AtEnd(src: Source, index: nat, endIndex: Option<nat>) {
    index == TotalChunks(|src.file|, src.chunkSize) || Some(index) == endIndex
  }

  /** The chunk handed over at `index` by a hasher whose state is `fed`. */
  function NextChunk(src: Source, fed: seq<byte>, index: nat): Chunk {
    var data := ChunkAt(src.file, src.chunkSize, index);
    Chunk(HexDigest(src.md5, fed + data), fed + data, index, data)
  }

  /**
   * `processIndex(index)`: stop at the chunk count or the end index; otherwise
   * append the chunk to the hasher (whose state is `fed`), take its digest and
   * state, call the handler, and go on to `index + 1` unless it said otherwise.
   */
  function Walk<W, E>(src: Source, fn: (W, Chunk) -> Verdict<W, E>, w: W, fed: seq<byte>,
                      index: nat, endIndex: Option<nat>): Walked<W, E>
    requires index <= TotalChunks(|src.file|, src.chunkSize)
    requires endIndex.Some? ==> index <= endIndex.value
    decreases TotalChunks(|src.file|, src.chunkSize) - index
  {
    if AtEnd(src, index, endIndex) then
      Walked(Finished(w), [])
    else
      var ch := NextChunk(src, fed, index);
      match fn(w, ch)
      case Continue(w') =>
        var rest := Walk(src, fn, w', ch.state, index + 1, endIndex);
        Walked(rest.outcome, [ch] + rest.trace)
      case Halt(w') => Walked(Finished(w'), [ch])
      case Throw(w', e) => Walked(Failed(w', e), [ch])
  }

  /** One step of a walk whose handler says go on: the rest of the walk follows the chunk. */
  lemma WalkStep<W, E>(src: Source, fn: (W, Chunk) -> Verdict<W, E>, w: W, fed: seq<byte>,
                       index: nat, endIndex: Option<nat>, prior: seq<Chunk>)
    requires index < TotalChunks(|src.file|, src.chunkSize)
    requires endIndex.Some? ==> index < endIndex.value
    requires fn(w, NextChunk(src, fed, index)).Continue?
    ensures var ch := NextChunk(src, fed, index);
      var here := Walk(src, fn, w, fed, index, endIndex);
      var rest := Walk(src, fn, fn(w, ch).world, ch.state, index + 1, endIndex);
      Walked(here.outcome, prior + here.trace) == Walked(rest.outcome, (prior + [ch]) + rest.trace)
  {
    var ch := NextChunk(src, fed, index);
    var rest := Walk(src, fn, fn(w, ch).world, ch.state, index + 1, endIndex);
    assert prior + ([ch] + rest.trace) == (prior + [ch]) + rest.trace;
  }

  /** One step of a walk whose handler stops or throws: the walk ends with that chunk. */
  lemma WalkStop<W, E>(src: Source, fn: (W, Chunk) -> Verdict<W, E>, w: W, fed: seq<byte>,
                       index: nat, endIndex: Option<nat>, prior: seq<Chunk>)
    requires index < TotalChunks(|src.file|, src.chunkSize)
    requires endIndex.Some? ==> index < endIndex.value
    ensures var ch := NextChunk(src, fed, index);
      var v := fn(w, ch);
      var here := Walk(src, fn, w, fed, index, endIndex);
      && (v.Halt? ==> Walked(here.outcome, prior + here.trace) == Walked(Finished(v.world), prior + [ch]))
      && (v.Throw? ==> Walked(here.outcome, prior + here.trace) == Walked(Failed(v.world, v.error), prior + [ch]))
  {
  }

  /** A walk over a three-chunk file whose handler goes on at every chunk resolves with the world after the last one. */
  lemma WalkOfThreeChunks<W, E>(src: Source, fn: (W, Chunk) -> Verdict<W, E>, w0: W, w1: W, w2: W, w3: W,
                                fed1: seq<byte>, fed2: seq<byte>)
    requires TotalChunks(|src.file|, src.chunkSize) == 3
    requires NextChunk(src, [], 0).state == fed1 && NextChunk(src, fed1, 1).state == fed2
    requires fn(w0, NextChunk(src, [], 0)) == Continue(w1)
    requires fn(w1, NextChunk(src, fed1, 1)) == Continue(w2)
    requires fn(w2, NextChunk(src, fed2, 2)) == Continue(w3)
    ensures Walk(src, fn, w0, [], 0, None).outcome == Finished(w3)
  {
    var fed3 := NextChunk(src, fed2, 2).state;
    assert Walk(src, fn, w3, fed3, 3, None).outcome == Finished(w3);
    assert Walk(src, fn, w2, fed2, 2, None).outcome == Finished(w3);
    assert Walk(src, fn, w1, fed1, 1, None).outcome == Finished(w3);
  }

  /**
   * `run(fn, startIndex, endIndex)` on a record `m`: when the start index is
   * positive, the hasher is first restored from the state saved at the index
   * before it.
   */
  function RunSpec<W, E>(src: Source, fn: (W, Chunk) -> Verdict<W, E>, w: W, m: Checkpoint.Meta,
                         startIndex: nat, endIndex: Option<nat>): Walked<W, E>
    requires startIndex <= TotalChunks(|src.file|, src.chunkSize)
    requires endIndex.Some? ==> startIndex <= endIndex.value
  {
    if startIndex == 0 then Walk(src, fn, w, [], 0, endIndex)
    else
      match Checkpoint.StateAt(m, startIndex - 1)
      case None => Walked(StateMissing, [])
      case Some(saved) => Walk(src, fn, w, saved, startIndex, endIndex)
  }

  /** Chunk `index` followed by chunks index+1, index+2, ... in order are chunks index, index+1, ... in order. */
  lemma VisitsCons(src: Source, ch: Chunk, rest: seq<Chunk>, index: nat)
    requires ch.index == index && ch.data == ChunkAt(src.file, src.chunkSize, index)
    requires forall k :: 0 <= k < |rest| ==> rest[k].index == index + 1 + k
    requires forall k :: 0 <= k < |rest| ==> rest[k].data == ChunkAt(src.file, src.chunkSize, index + 1 + k)
    ensures var t := [ch] + rest;
      && (forall k :: 0 <= k < |t| ==> t[k].index == index + k)
      && (forall k :: 0 <= k < |t| ==> t[k].data == ChunkAt(src.file, src.chunkSize, index + k))
  {
    var t := [ch] + rest;
    forall k | 1 <= k < |t|
      ensures t[k] == rest[k - 1] && index + k == index + 1 + (k - 1)
    {
    }
  }

  /**
   * The handler sees the indices index, index+1, ... in order, each with its own
   * slice of the file, and never an index at or past the limit; in particular a
   * walk that starts at its end index calls no handler.
   */
  lemma {:induction false} WalkVisitsInOrder<W, E>(src: Source, fn: (W, Chunk) -> Verdict<W, E>, w: W,
                                                   fed: seq<byte>, index: nat, endIndex: Option<nat>)
    requires index <= TotalChunks(|src.file|, src.chunkSize)
    requires endIndex.Some? ==> index <= endIndex.value
    ensures var t := Walk(src, fn, w, fed, index, endIndex).trace;
      && index + |t| <= Limit(TotalChunks(|src.file|, src.chunkSize), endIndex)
      && (forall k :: 0 <= k < |t| ==> t[k].index == index + k)
      && (forall k :: 0 <= k < |t| ==> t[k].data == ChunkAt(src.file, src.chunkSize, index + k))
    ensures !Walk(src, fn, w, fed, index, endIndex).outcome.StateMissing?
    decreases TotalChunks(|src.file|, src.chunkSize) - index
  {
    if !AtEnd(src, index, endIndex) {
      var ch := NextChunk(src, fed, index);
      if fn(w, ch).Continue? {
        var w' := fn(w, ch).world;
        WalkVisitsInOrder(src, fn, w', ch.state, index + 1, endIndex);
        VisitsCons(src, ch, Walk(src, fn, w', ch.state, index + 1, endIndex).trace, index);
      }
    }
  }

  /** Each chunk of `t`, the k-th being chunk `index + k`, carries the file up to its end and that prefix's digest. */
  ghost predicate HashedFromStart(src: Source, t: seq<Chunk>, index: nat) {
    forall k :: 0 <= k < |t| ==>
      && t[k].state == Prefix(src.file, ChunkEnd(|src.file|, src.chunkSize, index + k))
      && t[k].checksum == HexDigest(src.md5, t[k].state)
  }

  lemma HashedFromStartCons(src: Source, ch: Chunk, rest: seq<Chunk>, index: nat)
    requires HashedFromStart(src, [ch], index)
    requires HashedFromStart(src, rest, index + 1)
    ensures HashedFromStart(src, [ch] + rest, index)
  {
    var t := [ch] + rest;
    forall k | 1 <= k < |t|
      ensures t[k] == rest[k - 1] && index + k == (index + 1) + (k - 1)
    {
    }
  }

  /** A hasher holding the bytes before chunk `index` holds, after that chunk, the bytes before chunk `index + 1`. */
  lemma NextChunkState(src: Source, fed: seq<byte>, index: nat)
    requires fed == Prefix(src.file, index * src.chunkSize)
    ensures NextChunk(src, fed, index).state == Prefix(src.file, ChunkEnd(|src.file|, src.chunkSize, index))
    ensures NextChunk(src, fed, index).state == Prefix(src.file, (index + 1) * src.chunkSize)
  {
    PrefixThroughChunk(src.file, src.chunkSize, index);
  }

  /**
   * The continuation law: when the hasher starts from the bytes before chunk
   * `index`, the state handed over with each chunk is the file up to the end of
   * that chunk, and its digest is the digest of exactly those bytes, as if the
   * file had been hashed from byte 0 in one pass.
   */
  lemma {:induction false} WalkContinuation<W, E>(src: Source, fn: (W, Chunk) -> Verdict<W, E>, w: W,
                                                  fed: seq<byte>, index: nat, endIndex: Option<nat>)
    requires index <= TotalChunks(|src.file|, src.chunkSize)
    requires endIndex.Some? ==> index <= endIndex.value
    requires fed == Prefix(src.file, index * src.chunkSize)
    ensures HashedFromStart(src, Walk(src, fn, w, fed, index, endIndex).trace, index)
    decreases TotalChunks(|src.file|, src.chunkSize) - index
  {
    if !AtEnd(src, index, endIndex) {
      var ch := NextChunk(src, fed, index);
      NextChunkState(src, fed, index);
      assert HashedFromStart(src, [ch], index);
      if fn(w, ch).Continue? {
        var w' := fn(w, ch).world;
        WalkContinuation(src, fn, w', ch.state, index + 1, endIndex);
        HashedFromStartCons(src, ch, Walk(src, fn, w', ch.state, index + 1, endIndex).trace, index);
      }
    }
  }

  /** A handler that never returns `false`. */
  ghost predicate NeverHalts<W(!new), E(!new)>(fn: (W, Chunk) -> Verdict<W, E>) {
    forall w, ch :: !fn(w, ch).Halt?
  }

  /** With such a handler, a walk that resolves has visited every index up to its limit. */
  lemma {:induction false} WalkCompletes<W(!new), E(!new)>(src: Source, fn: (W, Chunk) -> Verdict<W, E>, w: W,
                                                          fed: seq<byte>, index: nat, endIndex: Option<nat>)
    requires index <= TotalChunks(|src.file|, src.chunkSize)
    requires endIndex.Some? ==> index <= endIndex.value
    requires NeverHalts(fn)
    ensures var r := Walk(src, fn, w, fed, index, endIndex);
      r.outcome.Finished? ==> index + |r.trace| == Limit(TotalChunks(|src.file|, src.chunkSize), endIndex)
    decreases TotalChunks(|src.file|, src.chunkSize) - index
  {
    if !AtEnd(src, index, endIndex) {
      var ch := NextChunk(src, fed, index);
      assert !fn(w, ch).Halt?;
      if fn(w, ch).Continue? {
        WalkCompletes(src, fn, fn(w, ch).world, ch.state, index + 1, endIndex);
      }
    }
  }

  // ------------------------------------------------------------- processor

  /** A run suspended by `waitForUnpause` at the index it was about to start. */
  datatype Waiter = Waiter(index: nat)

  /** `computeChecksum`: append, keep the state, finalise, and restore the kept state. */
  method ComputeChecksum(spark: Md5Hasher, chunk: seq<byte>) returns (checksum: string, state: seq<byte>)
    modifies spark
    ensures state == old(spark.fed) + chunk
    ensures checksum == HexDigest(spark.md5, state)
    ensures spark.fed == state
  {
    spark.Append(chunk);
    state := spark.GetState();
    checksum := spark.End();
    spark.SetState(state);
  }

  class FileProcessor {
    const file: seq<byte>
    const meta: Checkpoint.FileMeta
    const chunkSize: PosNat
    const md5: Md5
    var paused: bool
    var unpauseHandlers: seq<Waiter>

    constructor (file: seq<byte>, meta: Checkpoint.FileMeta, chunkSize: PosNat, md5: Md5)
      ensures this.file == file && this.meta == meta && this.chunkSize == chunkSize && this.md5 == md5
      ensures !paused && unpauseHandlers == []
    {
      this.file := file;
      this.meta := meta;
      this.chunkSize := chunkSize;
      this.md5 := md5;
      paused := false;
      unpauseHandlers := [];
    }

    function Src(): Source {
      Source(file, chunkSize, md5)
    }

    function Total(): nat {
      TotalChunks(|file|, chunkSize)
    }

    method Pause()
      modifies this
      ensures paused && unpauseHandlers == old(unpauseHandlers)
    {
      paused := true;
    }

    /** `unpause`: clear the flag and resume every waiting run once; the queue is emptied. */
    method Unpause() returns (resumed: seq<Waiter>)
      modifies this
      ensures !paused && unpauseHandlers == []
      ensures resumed == old(unpauseHandlers)
    {
      paused := false;
      resumed := unpauseHandlers;
      unpauseHandlers := [];
    }

    /**
     * `run(fn, startIndex, endIndex)`: restore the hasher from the state saved at
     * the index before the start one (reading a missing record fails the run),
     * then process indices from the start one.
     */
    method Run<W, E>(fn: (W, Chunk) -> Verdict<W, E>, w0: W, startIndex: nat, endIndex: Option<nat>)
      returns (result: Walked<W, E>)
      requires startIndex <= Total()
      requires endIndex.Some? ==> startIndex <= endIndex.value
      modifies this
      ensures result == RunSpec(Src(), fn, w0, meta.Current(), startIndex, endIndex)
      ensures paused == (old(paused) && result.trace == [])
      ensures unpauseHandlers == if old(paused) && result.trace != [] then [] else old(unpauseHandlers)
    {
      var spark := new Md5Hasher(md5);
      if startIndex > 0 {
        var saved := meta.GetSparkMD5State(startIndex - 1);
        if saved.None? {
          return Walked(StateMissing, []);
        }
        spark.SetState(saved.value);
      }
      result := ProcessFrom(spark, fn, w0, startIndex, endIndex);
    }

    /** `waitForUnpause`, taken to be resumed at once: a paused run queues itself and `unpause` releases it. */
    method WaitForUnpause(index: nat)
      modifies this
      ensures !paused
      ensures unpauseHandlers == if old(paused) then [] else old(unpauseHandlers)
    {
      if paused {
        unpauseHandlers := unpauseHandlers + [Waiter(index)];
        var resumed := Unpause();
      }
    }

    /** Slice chunk `index` out of the file and hash it on top of the hasher's state. */
    method ReadChunk(spark: Md5Hasher, index: nat) returns (ch: Chunk)
      requires spark.md5 == md5
      modifies spark
      ensures ch == NextChunk(Src(), old(spark.fed), index)
      ensures spark.fed == ch.state
    {
      var chunk := ChunkAt(file, chunkSize, index);
      var checksum, state := ComputeChecksum(spark, chunk);
      ch := Chunk(checksum, state, index, chunk);
    }

    /**
     * `processIndex(startIndex)` and the calls it makes on itself. Pausing is
     * checked before an index is started: a paused run queues itself and is
     * resumed by `unpause`, which the model takes to happen at that point; the
     * same index is processed next.
     */
    method ProcessFrom<W, E>(spark: Md5Hasher, fn: (W, Chunk) -> Verdict<W, E>, w0: W,
                             startIndex: nat, endIndex: Option<nat>)
      returns (result: Walked<W, E>)
      requires spark.md5 == md5
      requires startIndex <= Total()
      requires endIndex.Some? ==> startIndex <= endIndex.value
      modifies this, spark
      ensures result == Walk(Src(), fn, w0, old(spark.fed), startIndex, endIndex)
      ensures paused == (old(paused) && result.trace == [])
      ensures unpauseHandlers == if old(paused) && result.trace != [] then [] else old(unpauseHandlers)
    {
      var index := startIndex;
      var w := w0;
      var trace: seq<Chunk> := [];
      ghost var fed := spark.fed;
      ghost var target := Walk(Src(), fn, w0, fed, startIndex, endIndex);
      ghost var rest := target;
      while !AtEnd(Src(), index, endIndex)
        invariant startIndex <= index <= Total()
        invariant endIndex.Some? ==> index <= endIndex.value
        invariant spark.md5 == md5 && spark.fed == fed
        invariant rest == Walk(Src(), fn, w, fed, index, endIndex)
        invariant target == Walked(rest.outcome, trace + rest.trace)
        invariant paused == (old(paused) && trace == [])
        invariant unpauseHandlers == if old(paused) && trace != [] then [] else old(unpauseHandlers)
        decreases Total() - index
      {
        WaitForUnpause(index);
        var ch := ReadChunk(spark, index);
        var v := fn(w, ch);
        if !v.Continue? {
          WalkStop(Src(), fn, w, fed, index, endIndex, trace);
          return Walked(if v.Halt? then Finished(v.world) else Failed(v.world, v.error), trace + [ch]);
        }
        WalkStep(Src(), fn, w, fed, index, endIndex, trace);
        trace, w, index, fed := trace + [ch], v.world, index + 1, ch.state;
        rest := Walk(Src(), fn, w, fed, index, endIndex);
      }
      assert trace + rest.trace == trace;
      return Walked(Finished(w), trace);
    }
  }
}
