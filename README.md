# gcs-browser-upload, modelled in Dafny

gcs-browser-upload sends a browser `File` to a Google Cloud Storage resumable
upload session in chunks of a multiple of 5 MiB. It checkpoints, per chunk,
the MD5 digest and the rolling hasher state in `localStorage`, so an
interrupted upload can resume. Before resuming it asks the service how many
bytes it holds, revalidates the last two chunks against the checkpoint, and
starts afresh when they differ.

This project models the three core files:

- `Checkpoint.dfy` models `src/FileMeta.js`. The checkpoint record is a value
  (`Meta`). The key/value storage is a `Storage` class holding a map. The
  `FileMeta` class has one method per operation.
- `Hasher.dfy` models the rolling MD5 hasher as a class whose state is the
  bytes fed to it. The digest is an abstract function `md5` passed in by the
  caller.
- `Processor.dfy` models `src/FileProcessor.js`.
  - The chunk arithmetic is defined there.
  - `Walk` is the meaning of a run: the chunks in order, each hashed on top of
    the previous state and passed to a handler that goes on, stops or throws.
  - The `FileProcessor` class computes `Walk` with a loop, and carries the
    pause flag and the queue of waiting runs.
- `Uploads.dfy` and `Orchestrator.dfy` model `src/Upload.js`.
  - `Uploads.dfy` holds the pure decision logic: option validation, status
    classification, the digest checks on response headers, the
    `Content-Range` headers and the parse of the `range` header.
  - `Orchestrator.dfy` holds everything else:
    - the `uploadChunk` and `validateChunk` handlers, as functions over a
      `World` value;
    - the p-retry loop, the status probe and the resume decision;
    - `start()` as the function `StartSpec`;
    - the `Upload` class, whose methods compute those functions over the
      storage and the processor.
- `Encoding.dfy` holds the text encodings that `src/Upload.js` relies on:
  decimal rendering and `parseInt`, the hexadecimal digest string, the
  `/\w{2}/g` pair reading in `hexToBase64`, and base64 as in section 4 of
  RFC 4648, with its decoder.
- `Wrappers.dfy` holds Option, Result and a pass/fail Outcome.

The network is a sequence of responses given in advance. Each request takes
the next one; `None`, or an exhausted sequence, is a transport failure. The
`World` records:

- the checkpoint entry;
- the remaining responses;
- the requests sent;
- the `onChunkUpload` reports;
- the last accepted response.

The central properties:

- **Faithful checkpoint.** `start()` keeps the checkpoint faithful: every
  record it holds is the digest of, and the hasher state after, the file up
  to that chunk's end (`StartKeepsFaithful`). It rests on `UploadWalkFaithful`,
  which hands each chunk the expected digest and state through
  `NextChunkIsExpected` and `NextChunkState`. A faithful checkpoint without
  holes therefore always passes revalidation (`FaithfulCheckpointResumes`).
- **Progress reports.** A resolved `start()` has reported every chunk from its
  resume index to the end of the file, in order (`StartReportsEveryChunk`).
- **Digest mismatch.** A mismatch erases the checkpoint and restarts from
  chunk 0 (`MismatchRestartsFromZero`).
- **Retries.** The retries stop at the first attempt that is accepted or
  meets a 404, whichever attempt that is (`FirstFinalDecides`,
  `NotFoundAbortsRetrying`). They succeed exactly when some response within
  the retry budget is accepted with none final before it (`RetrySucceedsIff`,
  `UploadChunkAcceptedIff`). Other failures, a 503 among them, are retried.
- **Round trips.** Base64 decoding undoes encoding, and `parseInt` undoes
  decimal rendering.
- **A whole upload.** A 15 MiB upload whose third chunk meets one 503
  resolves with the final 200 after four requests (`FifteenMebibyteUpload`).

## Model

| member | source | states |
|---|---|---|
| Encoding.NatToString | src/Upload.js:97 | a number's decimal rendering is a non-empty digit string, one digit exactly when the number is below 10 |
| Encoding.IntToString | src/Upload.js:92-97 | any integer renders as a non-empty string, all digits exactly when it is non-negative (an empty chunk's end is -1) |
| Encoding.DecimalValueOfNatToString | src/Upload.js:166 | `parseInt` of a rendered number gives the number back |
| Encoding.NatToStringInjective | src/Upload.js:97 | two numbers that render the same are equal |
| Encoding.Hex | src/FileProcessor.js:71 | a digest string has two characters per byte, each a hexadecimal digit and a `\w` character |
| Encoding.WordPairsOfHex | src/Upload.js:205-207 | reading a hexadecimal digest two word characters at a time, each pair parsed base 16, gives back the digest's bytes |
| Encoding.Base64Encode | src/Upload.js:205 | the encoding has 4 * ceil(n / 3) characters |
| Encoding.Base64RoundTrip | src/Upload.js:205 | decoding the base64 encoding of any byte sequence gives it back |
| Hasher.HexDigest | src/FileProcessor.js:71 | `end()` yields a 32-character digest string |
| Hasher.Md5Hasher.constructor | src/FileProcessor.js:17 | a new hasher has been fed nothing |
| Hasher.Md5Hasher.Append | src/FileProcessor.js:69 | the state grows by exactly the chunk |
| Hasher.Md5Hasher.GetState | src/FileProcessor.js:70 | the state read is the current state |
| Hasher.Md5Hasher.SetState | src/FileProcessor.js:72 | the state becomes the one given |
| Hasher.Md5Hasher.End | src/FileProcessor.js:71 | the digest is that of everything fed so far, and the hasher is reset |
| Checkpoint.StorageKeyInjective | src/FileMeta.js:12 | sessions with different ids never share a storage key |
| Checkpoint.CurrentMeta | src/FileMeta.js:11-23 | the stored record if there is one, else an empty, unstarted record for this chunk size and file size |
| Checkpoint.ChecksumAt | src/FileMeta.js:54-56 | a digest exactly when a record exists at the index, and then that record's digest |
| Checkpoint.StateAt | src/FileMeta.js:58-60 | a hasher state exactly when a record exists at the index, and then that record's state |
| Checkpoint.WithChecksum | src/FileMeta.js:47-52 | the index holds the new record, other indices keep theirs, any gap is padded with holes, the record is started, and the sizes are unchanged |
| Checkpoint.ReadBackChecksum | src/FileMeta.js:47-60 | after `addChecksum(i, c, s)`, `getChecksum(i)` is c, `getSparkMD5State(i)` is s, and every other index reads as before |
| Checkpoint.ReplayFromEmpty | src/FileMeta.js:39-52 | recording chunks 0..k-1 in order on a fresh record leaves exactly those k records, so the resume index is k |
| Checkpoint.Storage.constructor | src/Upload.js:28 | the storage holds the given entries |
| Checkpoint.FileMeta.constructor | src/FileMeta.js:4-9 | id, sizes and storage are the ones given |
| Checkpoint.FileMeta.GetMeta | src/FileMeta.js:11-23 | the stored record, or the default one when the key is absent |
| Checkpoint.FileMeta.SetMeta | src/FileMeta.js:25-32 | the key holds the record, or is removed for null; no other key changes |
| Checkpoint.FileMeta.IsResumable | src/FileMeta.js:34-37 | true exactly when the record is started and has this chunk size |
| Checkpoint.FileMeta.GetResumeIndex | src/FileMeta.js:39-41 | the length of the checksum array |
| Checkpoint.FileMeta.GetFileSize | src/FileMeta.js:43-45 | the record's file size |
| Checkpoint.FileMeta.AddChecksum | src/FileMeta.js:47-52 | the key now holds the current record with chunk `index` recorded; no other key changes |
| Checkpoint.FileMeta.GetChecksum | src/FileMeta.js:54-56 | the recorded digest at the index, or none where the source reads a field of a missing entry |
| Checkpoint.FileMeta.GetSparkMD5State | src/FileMeta.js:58-60 | the recorded hasher state at the index, or none for a missing entry |
| Checkpoint.FileMeta.Reset | src/FileMeta.js:62-64 | the key is removed; the session then reads as fresh and not resumable; no other key changes |
| Processor.TotalChunksIsCeiling | src/FileProcessor.js:16 | the chunk count is the least number of chunks covering the file, and zero only for an empty file |
| Processor.TotalChunks | src/FileProcessor.js:16 | defines `Math.ceil(file.size / chunkSize)`; TotalChunksIsCeiling states it is the least chunk count covering the file |
| Processor.ChunkAt | src/FileProcessor.js:37-38 | defines `file.slice(index * chunkSize, index * chunkSize + chunkSize)`, clipped to the file; ChunkInside and ChunksPartitionFile state its bounds and that the chunks tile the file |
| Processor.ChunkInside | src/FileProcessor.js:37-38 | every chunk below the chunk count starts inside the file and holds between 1 and chunkSize bytes |
| Processor.ConcatIsPrefix | src/FileProcessor.js:37-38 | the first k chunks laid end to end are exactly the first k * chunkSize bytes, clipped to the file |
| Processor.ChunksPartitionFile | src/FileProcessor.js:16-38 | all chunks laid end to end are the file: no gap and no overlap |
| Processor.PrefixThroughChunk | src/FileProcessor.js:37-40 | the bytes before chunk i followed by chunk i are the bytes up to chunk i's end |
| Processor.NextChunkState | src/FileProcessor.js:37-40 | a hasher holding the bytes before chunk i holds, after it, the bytes before chunk i + 1 |
| Processor.WalkStep | src/FileProcessor.js:42-45 | when the handler goes on, the run continues at index + 1 from the state after the chunk |
| Processor.WalkStop | src/FileProcessor.js:42-45 | when the handler returns `false` the run resolves with that chunk last; when it throws, the run rejects with that error |
| Processor.WalkVisitsInOrder | src/FileProcessor.js:28-45 | the handler sees indices start, start+1, ... in order, each with its own slice, never at or past the chunk count or end index |
| Processor.WalkContinuation | src/FileProcessor.js:14-45 | a run started from the bytes before its start index hands over, with each chunk, the file up to that chunk's end and its digest, as if the file were hashed in one pass |
| Processor.WalkCompletes | src/FileProcessor.js:28-45 | with a handler that never returns `false`, a resolved run has visited every index up to its limit |
| Processor.WalkOfThreeChunks | src/FileProcessor.js:28-45 | over a three-chunk file, a handler that goes on at each chunk makes the run resolve with its last world |
| Processor.Walk | src/FileProcessor.js:28-46 | defines `processIndex`: stop at the chunk count or end index, else hash the chunk, call the handler, and go on unless it returns `false` or throws; WalkStep, WalkStop, WalkVisitsInOrder, WalkContinuation and WalkCompletes state its properties |
| Processor.RunSpec | src/FileProcessor.js:14-55 | defines `run`: restore the saved state before the start index, when there is one, then walk; FileProcessor.Run computes it |
| Processor.ComputeChecksum | src/FileProcessor.js:68-74 | the state is the old state plus the chunk, the digest is that state's, and the hasher keeps that state |
| Processor.FileProcessor.constructor | src/FileProcessor.js:6-12 | not paused, no waiting runs |
| Processor.FileProcessor.Pause | src/FileProcessor.js:57-59 | paused, queue unchanged |
| Processor.FileProcessor.Unpause | src/FileProcessor.js:61-65 | not paused, every waiting run released once, queue emptied |
| Processor.FileProcessor.WaitForUnpause | src/FileProcessor.js:48-52 | a paused run queues itself and is released; afterwards the processor is unpaused |
| Processor.FileProcessor.ReadChunk | src/FileProcessor.js:37-40 | the chunk handed over is the slice at the index, hashed on top of the hasher's state, which becomes the state after it |
| Processor.FileProcessor.ProcessFrom | src/FileProcessor.js:28-46 | the loop's result is the walk from the start index and the hasher's state, and a paused processor is unpaused once a chunk is processed |
| Processor.FileProcessor.Run | src/FileProcessor.js:14-55 | the result is the walk, started from the saved state before the start index (a missing one fails the run) |
| Uploads.ChunkSizeGuardGaps | src/Upload.js:38-40 | the guard as written accepts -5242880, and 0 or -1 with small chunks allowed; the intended guard refuses them |
| Uploads.ChunkSizeGuardsAgreeOnPositive | src/Upload.js:38-40 | on positive sizes the written and intended guards agree |
| Uploads.ValidateOptions | src/Upload.js:25-44 | success exactly when the chunk size passes and id, url and file are given; the chunk size is checked first; the result carries the defaults for options not given |
| Uploads.DefaultOptions | src/Upload.js:26-36 | the defaults are a 5242880-byte chunk, `text/plain` and 10 retries |
| Uploads.SmallChunkRefused | src/Upload.js:38-40 | a 1000000-byte chunk size without the override fails on the chunk size, whatever else is missing |
| Uploads.CheckResponseStatus | src/Upload.js:210-236 | passes exactly for an allowed status |
| Uploads.ChunkStatusClassification | src/Upload.js:210-236 | for a chunk upload, 200/201/308 pass, 404 alone is not-found, 500/502/503/504 are upload failures, all others are unknown |
| Uploads.ProbeStatusClassification | src/Upload.js:162 | for the probe, only 308 passes and 200/201 mean the file is already uploaded |
| Uploads.ParseRangeEnd | src/Upload.js:165-166 | a value only when the header ends in digits-dash-digits, and then the trailing digits' value |
| Uploads.ParseRangeEndOf | src/Upload.js:165-166 | a header ending in `a-b` yields b |
| Uploads.Md5FieldOfPrefixed | src/Upload.js:246 | `md5=` followed by a one-line value yields that value |
| Uploads.HexToBase64 | src/Upload.js:204-208 | a result exactly when at least one word pair is found |
| Uploads.HexToBase64OfDigest | src/Upload.js:204-208 | on a hexadecimal digest it is the base64 encoding of the digest's bytes |
| Uploads.Md5Field | src/Upload.js:246 | defines `value.match(/md5=(.*)/)[1]`: the rest of the line after the first `md5=`, or none for a failed match; Md5FieldOfPrefixed states it on every `md5=` value |
| Uploads.ReceivedMd5 | src/Upload.js:240 | defines the reported digest: `x-goog-hash`, or `x-range-md5` when that is absent |
| Uploads.StoredLengthIs | src/Upload.js:245 | defines the intended comparison of `x-goog-stored-content-length`, read as a decimal number, with end + 1 |
| Uploads.GoogDigestApplies | src/Upload.js:244-245 | defines when the `x-goog-hash` md5 is compared: the header is present and the stored length matches |
| Uploads.CheckDigestHeaders | src/Upload.js:238-256 | defines `checkResponseHeaders` with the stored-length comparison as a parameter; CheckResponseHeadersAsWritten and CheckResponseHeaders state its two instances |
| Uploads.CheckRangeDigest | src/Upload.js:248-255 | passes without a `range` header; a `range` header without a trailing digits-dash-digits group fails as malformed; when the reported end is the chunk's end and the reported digest differs from the local one it fails with that digest mismatch; it passes exactly in the remaining cases |
| Uploads.CheckResponseHeadersAsWritten | src/Upload.js:238-256 | as written, with a reported digest only the `range` branch decides |
| Uploads.CheckResponseHeaders | src/Upload.js:238-256 | passes when no digest is reported; where `x-goog-hash` is present and the stored length is end + 1, an md5 field that differs from the local digest in base64 fails with that mismatch, a matching one leaves the decision to the `range` branch, and an unreadable field or checksum fails as malformed; everywhere else the `range` branch decides |
| Uploads.AcceptedHeadersAgree | src/Upload.js:238-256 | a response that passes reports, wherever it is compared, the local digest: the md5 field is its base64 form where the stored length matches, and the reported digest is the local one where `range` reports the chunk's end |
| Uploads.HeaderChecksAgreeOffLength | src/Upload.js:244-245 | where the stored length is not end + 1, the check as written and the intended check decide alike |
| Uploads.GoogDigestMismatchIgnored | src/Upload.js:244-247 | a stored-length match with a wrong md5 passes the written check and fails the intended one |
| Uploads.GoogDigestMatchAccepted | src/Upload.js:244-247 | with the matching md5 and no `range` header the intended check passes |
| Uploads.ContentRange | src/Upload.js:97 | defines the chunk header `bytes {start}-{end}/{total}`; ContentRangeDeterminesBounds states that it determines its three numbers |
| Uploads.ProbeRange | src/Upload.js:155 | defines the probe header `bytes */{total}`; ProbeRangeIsNotChunkRange states that it never equals a chunk header |
| Uploads.ContentRangeDeterminesBounds | src/Upload.js:97 | a chunk's `Content-Range` determines its start, end and the file size |
| Uploads.ProbeRangeIsNotChunkRange | src/Upload.js:155 | the probe's `bytes */total` header is never a chunk's header |
| Orchestrator.Send | src/Upload.js:258-268 | the response is the next one on the network, or none once it is exhausted; the network advances by one and the request is appended to those sent; nothing else changes |
| Orchestrator.Attempt | src/Upload.js:116-129 | succeeds exactly when a response came, its status is 200, 201 or 308 and its headers pass, and then with that response; no response is a network error, a 404 is not-found, any other status or header failure gives its own error; the result is final exactly on success or a 404 |
| Orchestrator.Retry | src/Upload.js:115-130 | with n requests made, 1 <= n <= retries + 1: none of the first n - 1 responses was accepted or a 404, the result is the attempt on response n - 1, and that one is final unless every retry was used |
| Orchestrator.FirstFinalDecides | src/Upload.js:115-130 | the retries stop at the first attempt that is accepted or meets a 404, with that attempt's result, after exactly that many requests |
| Orchestrator.NotFoundAbortsRetrying | src/Upload.js:121-124 | a 404 at any attempt within the budget, with no earlier attempt final, is surfaced after exactly that attempt, whatever retries remain |
| Orchestrator.RetrySucceedsIff | src/Upload.js:115-130 | the retries succeed exactly when some response among the first retries + 1 is accepted and none before it was accepted or a 404 |
| Orchestrator.RetriesExhausted | src/Upload.js:115-130 | when none of the first retries + 1 responses is final, all of them are tried and the last attempt's error is surfaced |
| Orchestrator.TransientFailureRetried | src/Upload.js:115-130 | a 503 followed by an accepted response succeeds with that response after two requests |
| Orchestrator.UploadChunk | src/Upload.js:89-141 | goes on exactly when its retries (`ChunkRetry`) succeed, keeping that response as the last result; its world is the one `AfterRetries` gives for the retries' result and request count |
| Orchestrator.AfterRetries | src/Upload.js:89-141 | once the retries end after n requests: n copies of the chunk's request are sent and the network advances by n; an accepted chunk records its digest and state and reports the bytes up to its end; a failure leaves checkpoint, progress and last result unchanged and surfaces the retries' error |
| Orchestrator.UploadChunkRequests | src/Upload.js:90-97 | every attempt puts the chunk's bytes to the session URL with its content type and `Content-Range: bytes {index * chunkSize}-{end}/{size}`; earlier requests are kept |
| Orchestrator.UploadChunkAcceptedIff | src/Upload.js:115-133 | a chunk is accepted exactly when some response among the first retries + 1 passes the status and digest checks with none before it accepted or a 404 |
| Orchestrator.ChunkRetrySucceedsIff | src/Upload.js:115-130 | the retries `uploadChunk` runs for a chunk succeed exactly when some response among the first retries + 1 is accepted with none final before it |
| Orchestrator.UploadChunkKeepsResponse | src/Upload.js:115-131 | the response an accepted chunk keeps as the last result is one of the responses the network gave |
| Orchestrator.ValidateChunk | src/Upload.js:143-150 | goes on exactly when the recorded digest equals the new one, changing nothing; a mismatch erases the checkpoint; a missing record fails without erasing |
| Orchestrator.HandlersNeverHalt | src/Upload.js:89-150 | neither handler returns `false` |
| Orchestrator.Probe | src/Upload.js:152-168 | sends exactly the `bytes */size` probe |
| Orchestrator.ProbeIndexOf | src/Upload.js:162-167 | a 308 reporting bytes a-b gives floor((b + 1) / chunkSize) |
| Orchestrator.ProbeExample | src/Upload.js:162-167 | `bytes 0-5242879` with 5 MiB chunks gives remote index 1 |
| Orchestrator.ResumePoint | src/Upload.js:65 | the smaller of the local and remote indices |
| Orchestrator.WindowStart | src/Upload.js:71-72 | revalidation covers the last two indices before the resume index, or all of them when there are fewer |
| Orchestrator.Fresh | src/Upload.js:179 | defines `processor.run(uploadChunk)` from chunk 0; FreshKeepsFaithful and FreshReportsEveryChunk state its properties |
| Orchestrator.UploadFrom | src/Upload.js:86 | defines `processor.run(uploadChunk, resumeIndex)`; UploadFromKeepsFaithful and UploadFromReportsRest state its properties |
| Orchestrator.Validate | src/Upload.js:71-74 | defines `processor.run(validateChunk, startResumeIndex, resumeIndex)`; ValidateWalk and ValidateOutcome state its outcome |
| Orchestrator.Resume | src/Upload.js:61-87 | defines `resumeUpload`: local index, probe, their minimum, then ResumeAt; ResumeKeepsFaithful, FaithfulCheckpointResumes and MismatchRestartsFromZero state its properties |
| Orchestrator.ResumeAt | src/Upload.js:70-86 | defines the rest of `resumeUpload`: revalidate the window, then upload from the resume index, or afresh on any failure |
| Orchestrator.StartSpec | src/Upload.js:170-185 | defines `start()`; FinishedSessionRefuses, SuccessErasesCheckpoint, StartKeepsFaithful and StartReportsEveryChunk state its properties |
| Orchestrator.FinishedSessionRefuses | src/Upload.js:170-172 | `start()` on a finished session fails and changes nothing |
| Orchestrator.SuccessErasesCheckpoint | src/Upload.js:181-184 | a successful `start()` leaves no checkpoint |
| Orchestrator.ReportsCoverFile | src/Upload.js:135-140 | the reports name the chunks in order, each reporting the bytes up to its end, the last the whole file |
| Orchestrator.UploadHandlerRecords | src/Upload.js:131-140 | the upload handler records and reports each accepted chunk and changes neither on failure |
| Orchestrator.UploadWalkProgress | src/Upload.js:131-140 | a resolved upload run from an index adds exactly the reports of the chunks from that index on |
| Orchestrator.FaithfulAfterRecord | src/FileMeta.js:47-52 | recording a chunk's expected record keeps a faithful checkpoint faithful |
| Orchestrator.NextChunkIsExpected | src/FileProcessor.js:37-40 | the chunk handed over after the bytes before chunk i carries chunk i's expected digest and state |
| Orchestrator.UploadWalkFaithful | src/Upload.js:131-133 | an upload run keeps the checkpoint faithful and, when it resolves, every chunk from its start has its expected record |
| Orchestrator.FinishedKeepsStep | src/FileMeta.js:47-52 | the record written at an index survives the rest of a resolving run |
| Orchestrator.UploadStepFaithful | src/Upload.js:131-133 | one accepted chunk writes its expected record and keeps the checkpoint faithful |
| Orchestrator.UploadWalkKeepsEarlier | src/FileMeta.js:47-52 | an upload run from an index leaves the records of earlier indices as they were |
| Orchestrator.ValidateWalk | src/Upload.js:143-150 | a validation run that resolves changed nothing and matched every digest; one that rejects erased the checkpoint on a mismatch, or found a missing record |
| Orchestrator.FaithfulWindowValidates | src/Upload.js:70-74 | revalidating a faithful checkpoint that has every record of the window always passes |
| Orchestrator.FreshReportsEveryChunk | src/Upload.js:179 | a resolved fresh upload reports every chunk in order |
| Orchestrator.UploadFromReportsRest | src/Upload.js:86 | a resolved upload from the resume index reports every chunk from there on |
| Orchestrator.FreshKeepsFaithful | src/Upload.js:179 | a fresh upload keeps the checkpoint faithful and, when it resolves, has recorded every chunk |
| Orchestrator.FaithfulRecordAt | src/FileProcessor.js:18-21 | a faithful record's saved state is the file up to that chunk's end |
| Orchestrator.UploadFromKeepsFaithful | src/Upload.js:86 | uploading from the resume index keeps a faithful checkpoint faithful |
| Orchestrator.ValidateOutcome | src/Upload.js:70-83 | revalidation that resolves changed nothing and matched the window; one that fails at most erased the checkpoint |
| Orchestrator.ResumeKeepsFaithful | src/Upload.js:61-87 | resuming keeps a faithful checkpoint faithful, whichever way it goes |
| Orchestrator.StartKeepsFaithful | src/Upload.js:170-185 | `start()` keeps the checkpoint faithful |
| Orchestrator.StartReportsEveryChunk | src/Upload.js:170-185 | a resolved `start()` reported every chunk from some index to the end; that index is 0 unless it resumed, and then at most both the local and the remote index |
| Orchestrator.FaithfulCheckpointResumes | src/Upload.js:61-87 | a faithful checkpoint without holes passes revalidation, so the upload goes on from the resume index |
| Orchestrator.MismatchRestartsFromZero | src/Upload.js:75-83 | a digest mismatch erases the checkpoint and uploads afresh from chunk 0 |
| Orchestrator.ChunkAccepted | src/Upload.js:115-133 | an accepted first attempt goes on after one request, keeping the response |
| Orchestrator.RetriedChunkAccepted | src/Upload.js:115-133 | a 503 then an accepted response goes on after two requests, keeping the second response |
| Orchestrator.UploadStepAccepted | src/Upload.js:89-141 | the upload handler on the chunk after the bytes before it goes on, consuming one or two responses, with the state at the chunk's end |
| Orchestrator.FirstTwoChunksAccepted | src/Upload.js:89-141 | chunks 0 and 1 answered 308 each go on after one request |
| Orchestrator.ThreeChunkWalk | src/FileProcessor.js:28-45 | a three-chunk upload answered 308, 308, 503, accepted resolves after four requests |
| Orchestrator.ThreeChunkUpload | src/Upload.js:179 | the same as a fresh upload: it passes, with the final response kept |
| Orchestrator.FifteenMebibyteUpload | src/Upload.js:170-185 | 15 MiB in 5 MiB chunks, 308, 308, 503, 200 with a matching md5: `start()` returns that 200 after four requests, all three chunks reported and recorded, the last report covering the file, the checkpoint erased |
| Orchestrator.Upload.constructor | src/Upload.js:52-55 | a checkpoint store and a processor over the session's file, id and chunk size; no last result; not finished |
| Orchestrator.Upload.Create | src/Upload.js:25-56 | fails exactly when the options fail validation, with the same error; otherwise a new valid session over the validated options |
| Orchestrator.Upload.Start | src/Upload.js:170-185 | the result and the world are `StartSpec` on the stored entry; the entry is written back under this key only; finished exactly when it resolved |
| Orchestrator.Upload.FreshUpload | src/Upload.js:179 | computes the fresh upload and writes its entry back |
| Orchestrator.Upload.ResumeUpload | src/Upload.js:61-87 | computes the resume path and writes its entry back |
| Orchestrator.Upload.ResumeFrom | src/Upload.js:70-86 | validates the window, then uploads from the resume index or afresh, and writes each run's entry back |
| Orchestrator.Upload.UploadRest | src/Upload.js:86 | computes the upload from the resume index and writes its entry back |
| Orchestrator.Upload.Pause | src/Upload.js:187-190 | the processor is paused |
| Orchestrator.Upload.Unpause | src/Upload.js:192-195 | the processor is unpaused and every waiting run released |
| Orchestrator.Upload.Cancel | src/Upload.js:197-201 | paused, the checkpoint erased, so the session is no longer resumable; no other key changes |

## Left out

- The HTTP transport (`axios.put` inside `safePut`) is a sequence of responses given in advance. A transport failure is a `None` response; the distinction between a thrown `Error` and a non-`Error` value is not modelled.
- Orchestrator.Retry: p-retry's backoff timing and its `onFailedAttempt` hooks are left out. After the last attempt it surfaces that attempt's error. p-retry's handling of non-`Error` rejections is left out.
- Orchestrator.Attempt, Orchestrator.UploadChunk, Orchestrator.Upload.Create and Uploads.ValidateOptions use the corrected chunk-size guard and header check of the Findings table, not the code as written. On the two inputs named there, the modelled session refuses the chunk size, or fails the chunk on its `x-goog-hash` digest, where the source goes on.
- `onUploadProgress` is left out; it is the transport's per-byte progress callback, and no contract depends on it. `onChunkUpload` is modelled as the list of reports a run produces, not as a callback.
- The digest function is abstract: MD5 itself and SparkMD5's internal state layout are left out. The hasher state is the sequence of bytes fed.
- `FileReader` and `file.slice` are left out: the file is an in-memory byte sequence read synchronously.
- `JSON.stringify` and `JSON.parse` of checkpoint records and hasher states are taken to be the identity. A hole in the sparse checksum array is a `None` entry.
- `src/errors` is not part of this model. The error classes are one datatype, carrying the fields the source passes to their constructors.
- `src/debug` is not part of this model; the `debug(...)` logging is left out.
- Processor.FileProcessor.WaitForUnpause: the promise that waits for `unpause()` is resolved at once. The run queues itself, and `unpause()` is taken to happen at that point. Concurrent callers of `pause()` during a run are not modelled.
- Orchestrator.Upload.Cancel: cancelling while a request is in flight is not modelled. Every operation runs to completion before the next starts.
- Orchestrator.Resume: a resume index past the last chunk fails with `ResumeBeyondFile`. The source would instead start `processIndex` past the chunk count, which never reaches the count and keeps sending empty chunks until the service refuses one. This needs both the checkpoint and the service to claim more chunks than the file has.
- Orchestrator.Upload.Start: the handlers work on a `World` value. The resulting checkpoint entry is written to the storage after each run, not during the run. No one else reads the storage in between, so the entry left at the end is the same.
- Integers are unbounded. `parseInt` loses precision above 2^53 and `Math.floor` works on floating point; both are left out.
- `meta.getFileSize() === opts.file.size` compares the parsed number with the file size. A stored size of a different type is not modelled.

## Findings

| source | as written | input that shows it | evidently intended | confidence | as-written member | corrected member |
|---|---|---|---|---|---|---|
| src/Upload.js:38 | the chunk size is refused only when it is zero or not a multiple of 5 MiB, and never when small chunks are allowed | chunkSize -5242880; or chunkSize 0 or -1 with small chunks allowed | a chunk size must be positive: otherwise the chunk count of a non-empty file is infinite or negative, and the run's index, counting up from 0, never reaches it | not executed | Uploads.ChunkSizeGuardGaps | Uploads.ValidateOptions |
| src/Upload.js:245 | `(chunkInfo.end + 1) === headers['x-goog-stored-content-length']` compares a number with a header string, so it never holds and the `x-goog-hash` digest is never compared | a final response with `x-goog-hash: md5=<not the chunk's digest>` and `x-goog-stored-content-length` equal to end + 1 | compare the stored length as a number, so a wrong digest in `x-goog-hash` fails the chunk | not executed | Uploads.GoogDigestMismatchIgnored | Uploads.CheckResponseHeaders |
