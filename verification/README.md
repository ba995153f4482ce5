# Verification of the download engine, its tunnel handoffs and its Android queue

This project models three parts of the repository and proves what they promise.

* **The multi-part download engine** (`pkg/engine`). A file is cut into byte-range chunks, workers fetch them with
  retries that resume mid-chunk, write them at their offsets, and save a checkpoint from which a later run resumes; or
  an ordered reader drains chunks prefetched inside a sliding window. It is modelled twice: the sequential code as
  classes, methods and loops proved against specification functions (`Chunks`, `Progress`, `Worker`, `Checkpoints`,
  `Stream`, `ContentRanges`, `Rename`), and the concurrent code as two machines whose steps are the single accesses to
  shared state (`Download`, `Prefetch`). The download machine has all three entry points that write a file
  (`DownloadToFD`, `DownloadToFileWithResume`, `DownloadToFile`), multi-part and single-stream runs, and chains of them on
  one file and one saved checkpoint. Theorems about the machines hold in every state of every run, and `DownloadCalls`
  shows that the machine's workers change their chunk and end a `downloadChunk` call as the sequential model does;
  `DownloadConduct` and `DownloadDurability` add how whole runs behave for their caller.
* **The tunnel's byte handoffs** (`pkg/tunnel`): the HTTP upgrade and the SOCKS5 handshake with its forwarding loops,
  over connections that deliver bytes in arbitrary pieces (`Wire`, `Upgrade`, `Socks`).
* **The Android download queue** (`DownloadQueueManager`): a state machine over task statuses and database rows
  (`DownloadQueue`, `QueueTheorems`, `QueueWitnesses`), what each operation does to every task and row
  (`QueueEffects`), the manager's own code proved against it (`QueueManager`), and its cap under unsynchronised
  callbacks (`QueueRaces`).

`dafny verify dfyconfig.toml` checks everything.

## Where to start

| theorem | in one sentence |
|---|---|
| `DownloadTheorems.NilReturnMeansSource` | for every interleaving, failure, cancel, kill and resume, a nil return of a multi-part run means the file is the source |
| `DownloadTheorems.CheckpointsStayTrue` | a checkpoint saved at any point, torn or not, is refused or true, then and until a run empties the file |
| `DownloadTheorems.StartTruthIff`, `DownloadStale.UnguardedGoesWrong` | exactly which starts leave a checkpoint that lies, and that a lie ends in a nil return over a wrong file |
| `DownloadLiveness.EveryRunEnds` | no run hangs unless reads bring nothing for ever |
| `DownloadSuccess.NilReachableIff`, `DownloadResumes.ResumesSucceedIff` | a started run, or a chain of resumes, can still end in nil iff no chunk is full without its flag |
| `Retries.TakenIff`, `CallEnds` | exactly which replies an attempt copies from, and exactly how a call ends |
| `Checkpoints.ResumableIff` | exactly which checkpoints are resumed against which probe |
| `DownloadConduct.PauseThenResume` | the run after a pause goes on with every chunk and every byte as they stood |
| `DownloadDurability.FinishedSurvivesKill` | a kill at any point costs no finished chunk |
| `DownloadCalls.CallsAreCalls` | every `downloadChunk` call of the machine ends with the chunk and the error of some call of the sequential model |
| `DownloadTheorems.LedgerAlways` | the progress counter's exact ledger at every micro-step |
| `PrefetchTheorems.StreamInOrder`, `ReachesEof`, `StreamIsSourceIff` | the stream is in order, gets to EOF, and equals the source iff no retry was mid-chunk |
| `PrefetchTheorems.TeardownEnds` | once cancelled, every worker leaves and no read waits, unless the panic comes first |
| `PrefetchTheorems.PanicIff` | closing can end in a store into the nil map iff a worker was in flight |
| `Upgrade.AfterHeadersIff`, `Socks.HandshakeIff` | the handoffs consume exactly the handshake, nothing more or less |
| `Upgrade.OpensOnlySo`, `Socks.CodesIff` | which status lines open the tunnel, and what every SOCKS client is told |
| `QueueEffects.CancelTakesAway` and the others there | what every operation does to every task and every row |
| `QueueTheorems.CapHolds`, `PauseAllIff`, `StaysFullIff`, `CrashKeepsTasks` | the queue's cap, when "pause all" pauses all, which operations leave slots empty, and what a crash keeps |

## Assumptions about the environment

* The resource and what a probe says of it stay the same over a whole chain of runs (`Download.Env`); it is not empty,
  serves ranges, and is at most 2^62 bytes long, as the layout's int64 sums need (`Chunks.FitsInt64Exact` says exactly
  which sizes are safe).
* A server's body is what its own head says it is, whatever was asked for: a 206 reply carries a prefix of the source
  from the first byte its `Content-Range` names, a 200 reply a prefix of the source from byte 0 (`Worker.Origin`,
  `Retries.Honest`). That the bytes taken are the ones asked for is not assumed but follows from the checks on the reply
  (`Retries.TakenIff`). Bodies may be cut anywhere and may run past the requested end: nothing caps them while copying
  (pkg/engine/worker.go:153-178). Where a claim needs the body to be no longer than asked, it says so (`Capped` in
  `DownloadTheorems.LedgerWithoutExcess`).
* The file is a byte array behind positioned writes, and the saved checkpoint a cell that is replaced whole or not at
  all; writes may be short or fail, saves and loads may fail, so may truncating up. Runs of a chain share one file and
  one checkpoint, as with a caller-owned descriptor, or with a destination path and `AutoRename` off; nothing else
  changes them.
* `DownloadTheorems.Chain` asks the caller for one thing, `DownloadSafety.Guarded`: a run that empties the file leaves
  no checkpoint behind that would be accepted and claims some of it. `DownloadTheorems.StartTruthIff` says that nothing
  less will do, and "Findings" who breaks it.
* Everything that depends on time (timeouts, backoff, idle limits) is the environment's choice to fail or cancel.
* `LastModified` is its formatted text, empty when the source's time is zero. Retry budgets are not negative, which
  `WithMaxRetries` ensures (pkg/engine/options.go:187-195). Concurrency is below 2^61.

## Findings

The code was kept as it is; where a claim fails, its exact condition is proved, and an input on which it fails.

* **A full chunk without its flag blocks every run that resumes from it.** Every attempt on it fails before any request
  (pkg/engine/worker.go:97-99). `Retries.ResumableIff` for one call, `DownloadTheorems.FullUnflaggedChunkIsStuck` across
  the checkpoint, `DownloadSuccess.NilReachableIff` for a run, `DownloadResumes.ResumesSucceedIff` for chains of resumes.
  A run that does not accept the checkpoint starts over and can succeed. Two things leave such a chunk behind: a cancel
  between the last byte and `MarkCompleted` (`DownloadWitnesses.CancelLeavesFull`), and a body longer than asked, which
  fills the chunk and then fails the length check (`DownloadWitnesses.OverlongLeavesFull`).
* **A stale checkpoint can outlive the bytes it claims**, in three ways: `DownloadToFileWithResume` empties the file after
  an accepted checkpoint failed to load, and the new one fails to save (pkg/engine/fd_sink.go:69-86, 166-169); a run with
  concurrency 1, through the descriptor or by name after a failed load, truncates for a single stream and never looks at
  the checkpoint (pkg/engine/fd_sink.go:35-36, 104-108, 265); `DownloadToFile` on the same path empties the file and knows
  no checkpoint. `DownloadTheorems.StartTruthIff` is the exact condition; `DownloadStale.UnguardedGoesWrong` shows the
  later nil return over a wrong file behind every start that breaks it.
* **A stream retry that resumes mid-chunk loses bytes**: the factory hands out an empty buffer while the request asks
  only for the rest (pkg/engine/stream_sink.go:237-240, pkg/engine/worker.go:96). `PrefetchTheorems.StreamIsSourceIff`
  gives the exact condition, `Retries.MidChunkRetryLosesBytes` shows it at every possible break point.
* **Rollback undercounts.** `SubBytes` takes back bytes the chunk keeps (pkg/engine/worker.go:66-68), so after a nil
  return the counter is short by exactly what was rolled back (`DownloadTheorems.FinalTracker`), which happens
  (`DownloadWitnesses.NilAfterRollback`). The clamp in `SubBytes` never acts in such a run
  (`DownloadTheorems.LedgerAlways`).
* **A single-stream run does not compare lengths**: a body that ends early with a clean EOF returns nil
  (pkg/engine/fd_sink.go:323-327). `DownloadTheorems.EofIsNil` has the comparison the code leaves out, bytes so far
  plus bytes of the last read against the length; `DownloadWitnesses.CutStreamReturnsNil` reaches a nil return with the
  body cut at any byte.
* **`Close` with a worker in flight can end in a store into a nil map** (pkg/engine/stream_sink.go:249, 335), and only
  then: `PrefetchTheorems.PanicIff`, reached from every start by `EarlyCloseCanPanic`. After a read to EOF it cannot happen
  (`EofThenCloseIsSafe`).
* **A Content-Range with an unknown length is refused**, although section 14.4 of RFC 9110 allows it
  (`ContentRanges.UnknownTotalRefused`).
* **"Pause all" can restart downloads**: every pause pumps the queue, new tasks go in at the front, so on a lost network
  a waiting task ahead of the first running one is started and never paused. `QueueTheorems.PauseAllIff`, and a history
  that gets there for every cap, `PauseAllRestarts`.
* **Slots can stay empty with tasks waiting** after operations that do not pump: `removeTask`, a failed native start, a
  restart of the process with QUEUED rows in the database, and a network lost while Wi-Fi mode held the queue, if the
  network active after the loss is Wi-Fi without the internet capability, which the monitor reports as disconnected and
  Wi-Fi (android/app/src/main/java/com/downloadengine/app/service/NetworkMonitor.java:29-40, 57-62). Completion and
  errors post a pump that repairs it. `QueueTheorems.StaysFullIff` gives the exact condition for every operation;
  `QueueWitnesses` has a history for each, for every cap: `FreedSlotStaysEmpty`, `RestartLeavesSlotsEmpty`,
  `LostNetworkLeavesSlotsEmpty`.
* **A late progress report makes a restart forget that a task had ended**, since `onProgress` writes DOWNLOADING into
  its row: `QueueTheorems.CrashKeepsTasks` for the exact condition, `LateProgressForgets` for a history.

## Model

| member | source | states |
|---|---|---|
| `Chunks.Chunk.SetDownloaded` | pkg/engine/chunk.go:30-40 | the done count becomes the given one, cut to `[0, Size]`; the range and the flag stay |
| `Chunks.Chunk.MarkCompleted` | pkg/engine/chunk.go:50-55 | the chunk becomes full and flagged; the range stays |
| `Chunks.CalculateChunks` | pkg/engine/chunk.go:65-112 | the loop, in int64 arithmetic, yields fresh distinct chunks that are exactly the closed-form layout for the size in force; nothing for an empty file |
| `Chunks.EndOfExact` | pkg/engine/chunk.go:96-99 | for every start and size, the int64 end is the intended one if and only if `start + size` is at most 2^63, and negative otherwise |
| `Chunks.FitsInt64Exact` | pkg/engine/chunk.go:94-110 | all ends of a layout are right if and only if the file size rounded up to chunks is at most 2^63 |
| `Chunks.FitsUpTo2To62` | pkg/engine/chunk.go:65-112 | so no sum wraps for files up to 2^62, whatever the chunk size |
| `Chunks.LayoutTiles` | pkg/engine/chunk.go:65-112 | every byte of the file lies in exactly one chunk, chunks are in order and numbered consecutively |
| `Chunks.TilesIffChained` | pkg/engine/checkpoint.go:156-167 | a list passes the single-pass chaining of starts to ends if and only if it tiles the file |
| `Chunks.ChunkSizes` | pkg/engine/chunk.go:65-112 | every chunk has the same size except the last, which is no larger; it is the preferred one, or the file's if that is smaller; in dynamic mode a quarter of a worker's share, but at least 2 MiB, at most 64 MiB and no more than the file |
| `Chunks.DynamicChunkCount` | pkg/engine/chunk.go:71-87 | in dynamic mode there are at least 4 chunks a worker if and only if the file is larger than (4c - 1) times 2 MiB |
| `Progress.ProgressTracker.AddBytes` | pkg/engine/progress.go:62-66 | adds positive counts, ignores others |
| `Progress.ProgressTracker.SubBytes` | pkg/engine/progress.go:69-82 | takes the count off; the compare-and-swap loop ends whatever others add in between, at the first value that is not negative, or at 0 once nobody interferes |
| `Progress.ProgressTracker.ChunkCompleted` | pkg/engine/progress.go:95-97 | one more chunk, nothing else |
| `Worker.AttemptDownloadChunk` | pkg/engine/worker.go:81-194 | the attempt, reply checks in order, equals the specification: chunk, bytes booked, bytes the writer took, tracker, error; `Worker.CopySucceedsIff`, `Retries.TakenIff` and `Retries.CallEnds` say what that specification accepts and refuses |
| `Worker.CopyBody` | pkg/engine/worker.go:151-193 | the copy loop and its length check, for every pattern of reads, short and failed writes and cancellation |
| `Worker.RetryTurn` | pkg/engine/worker.go:30-75 | one turn of the retry loop: cancellation, backoff, writer, attempt, completion or rollback and fast failure |
| `Worker.DownloadChunk` | pkg/engine/worker.go:19-79 | the whole call: outcome, chunk, retry count, file contents as written by the log of attempts, tracker and completed count |
| `Worker.CopyBooks` | pkg/engine/worker.go:151-191 | the done prefix follows the bytes booked, cut at the chunk's end, and success means exactly the expected number was booked |
| `Worker.CopyTakes` | pkg/engine/worker.go:160-186 | the writer took a prefix of the body, at least what was booked, and exactly that on success |
| `Worker.CopySucceedsIff` | pkg/engine/worker.go:153-193 | the copy succeeds if and only if some read brings an EOF or an error, every read up to it comes before any cancellation and is written in full, and together they bring exactly the bytes expected |
| `Worker.AttemptFacts` | pkg/engine/worker.go:96-101 | every attempt's writer and request start at the same byte, which is also where the body of an accepted reply begins in the resource; a request is sent if and only if part of the chunk is missing |
| `Retries.TakenIff` | pkg/engine/worker.go:103-158 | once a reply has come, the attempt goes on to copy its body if and only if the status is 206 with exactly the requested range and a total that is not positive or reaches past the end, or 200 for a request from byte 0; otherwise nothing of the body is taken and the chunk stays |
| `Retries.CallEnds` | pkg/engine/worker.go:29-78 | no attempt follows a success, one of the statuses 400, 401, 403, 404, 410 and 416, or a 200 past byte 0; any other failure is retried until MaxRetries + 1 attempts have failed, and exactly then the call is exhausted |
| `Retries.RetryLinks` | pkg/engine/worker.go:29-78 | each attempt starts from the chunk the one before left, at most MaxRetries + 1 run, and the call succeeds if and only if its last attempt does |
| `Retries.RetriesFetchOnce` | pkg/engine/worker.go:19-194 | request starts never decrease and always equal the writer's offset; on success attempts continue where booked bytes end and sum to Size minus the initial Downloaded |
| `Retries.SlotContents` | pkg/engine/stream_sink.go:235-252 | with servers whose bodies are what their replies say, after a successful call the last writer holds exactly `source[s..End]`, s the last attempt's start, and that is the whole chunk if and only if s is Start |
| `Retries.MidChunkRetryLosesBytes` | pkg/engine/stream_sink.go:237-240 | for every chunk and every break point m there is a successful call whose slot misses the first m bytes |
| `Retries.FileHoldsProgress` | pkg/engine/worker.go:153-178 | with such servers, over a whole call, failures included, the file keeps every stretch of the source it held and holds the chunk's new done prefix |
| `Retries.ResumableIff` | pkg/engine/worker.go:96-99 | some environment lets a call succeed if and only if part of the chunk is missing; a full unflagged chunk never even sends a request |
| `Retries.LinkedFile` | pkg/engine/fd_sink.go:220-222 | writing attempt after attempt at its own base never spoils source bytes the file holds |
| `ContentRanges.RangeRoundTrip` | pkg/engine/worker.go:196-216 | every range with a length, as a server writes it, is parsed back exactly |
| `ContentRanges.UnknownTotalRefused` | pkg/engine/worker.go:127-131 | a range with an asterisk for its length is refused and fails the attempt |
| `ContentRanges.SpelledIsRead` | pkg/engine/worker.go:196-216 | a header made of the unit in any case, spaces, a first number up to the first hyphen, a last one up to the slash and a length is read as exactly these numbers if they are a range, whatever spaces stand around, and refused otherwise |
| `ContentRanges.ReadIsSpelled` | pkg/engine/worker.go:196-216 | and no other header is accepted |
| `ContentRanges.RangeIsProper` | pkg/engine/worker.go:207-215 | whatever the header, an accepted range has `0 <= first <= last` within int64 |
| `Checkpoints.NewCheckpoint` | pkg/engine/checkpoint.go:44-73 | a fresh record of the resource and of every chunk's current state |
| `Checkpoints.Checkpoint.SyncFromChunks` | pkg/engine/checkpoint.go:76-89 | entries take the counts and flags of the chunks, ranges stay, the completed size is the sum |
| `Checkpoints.Checkpoint.IsResumeValid` | pkg/engine/checkpoint.go:141-168 | the checks and the single pass accept exactly the resumable records; `ResumableIff` says which those are |
| `Checkpoints.ResumableIff` | pkg/engine/checkpoint.go:141-168 | a record is resumed if and only if the probe has ranges and the same positive length, the stored tag is empty or the probe's own once quotes are taken off both, the stored and the probed time are the same or one is missing, and the entries tile the resource with sound prefixes |
| `Checkpoints.TagDecides` | pkg/engine/checkpoint.go:145-149 | with tags `a` and `b`, each written with quotes or without, a record is resumed if and only if they are equal and it would be resumed without a tag |
| `Checkpoints.FreshIff` | pkg/engine/checkpoint.go:44-73 | a fresh record is resumed against a later probe exactly when that one shows the same tag, time and length as the probe it was made from |
| `Checkpoints.Checkpoint.EntriesValid` | pkg/engine/checkpoint.go:156-167 | the loop over the entries, against the reference meaning of a tiling |
| `Checkpoints.RestoreChunks` | pkg/engine/fd_sink.go:149-162 | restored chunks equal the stored entries and the initial count is the sum of their prefixes |
| `Checkpoints.TornSnapshot` | pkg/engine/checkpoint.go:81-87 | a snapshot that read counts and flags at different times is accepted if and only if no entry is flagged short of its size |
| `Checkpoints.RoundTrip` | pkg/engine/checkpoint.go:44-168 | any sound progress over a layout, stored and synced, is accepted against the same resource and restores to the same chunks |
| `DownloadSafety.NextInv` | pkg/engine/fd_sink.go:16-330 | the global invariant survives every event: any worker's step, cancellation, final save, kill, a turn of a single stream, and every start through any entry point that does not empty the file behind a checkpoint claiming some of it |
| `DownloadSafety.PourInv` | pkg/engine/fd_sink.go:309-330 | a turn of the single-stream loop appends the next bytes of the source, and the file loses no source byte |
| `DownloadSafety.WorkerStep` | pkg/engine/worker.go:19-194 | every single step of a worker keeps the truth of chunks, queue, in-memory and saved checkpoint, and what the other workers rely on |
| `DownloadSafety.FinalSnapshotResumable` | pkg/engine/fd_sink.go:245-251 | the snapshot after all workers left cannot be torn |
| `DownloadSafety.ReturnComplete` | pkg/engine/fd_sink.go:253-261 | no error and no cancellation at the return means every chunk is complete |
| `DownloadTheorems.NilReturnMeansSource` | pkg/engine/fd_sink.go:133-262 | in every chain of runs, entry points mixed, a nil return of a multi-part run means the file starts with the source, and is the source if it was ever no longer than it |
| `DownloadTheorems.StreamNilMeansPrefix` | pkg/engine/fd_sink.go:264-330 | a nil return of a single-stream run means the file is a prefix of the source, whole if and only if all its bytes were written |
| `DownloadTheorems.EofIsNil` | pkg/engine/fd_sink.go:316-329 | when a read of n bytes brings the end, the verdict is nil unless the write fails, and the file is then the source if and only if the bytes before plus n are its length |
| `DownloadWitnesses.CutStreamReturnsNil` | pkg/engine/fd_sink.go:264-330 | for every resource and every cut of it, a single-stream chain returns nil with the file holding the source up to the cut |
| `DownloadTheorems.ProgressIsTrue` | pkg/engine/worker.go:160-171 | in every reachable state each chunk's done prefix is in the file |
| `DownloadTheorems.ChainKept` | pkg/engine/fd_sink.go:119-146 | as long as no run empties the file, no event of any chain makes it lose a source byte it holds |
| `DownloadTheorems.CheckpointsStayTrue` | pkg/engine/checkpoint.go:76-118 | a checkpoint saved at any point is refused by the resume check or true of the file; and it stays so at every later point until a run empties the file |
| `DownloadTheorems.FinalSaveAccepted` | pkg/engine/fd_sink.go:245-251 | the save after a cancel or error of a run that keeps a checkpoint leaves one the next run accepts, with every chunk as it stands |
| `DownloadTheorems.FullUnflaggedChunkIsStuck` | pkg/engine/worker.go:97-99 | an unfinished chunk of that checkpoint can be finished by a call that resumes from it if and only if part of it is missing |
| `DownloadTheorems.OneHolderPerChunk` | pkg/engine/fd_sink.go:213-240 | two workers never hold the same chunk, and a held chunk is not queued |
| `DownloadTheorems.TakenOnce` | pkg/engine/fd_sink.go:183-213 | who took a chunk never changes, and only an unfinished queued chunk is taken |
| `DownloadTheorems.NilVerdict` | pkg/engine/fd_sink.go:243-261 | the verdict is nil if and only if no error is recorded and the workers' context is not cancelled; then all chunks are complete and counted and no worker is active. A cancelled parent whose cancellation has not arrived yet is not excluded |
| `DownloadTheorems.LedgerAlways` | pkg/engine/progress.go:62-82 | counter plus rolled-back bytes plus writes in mid-bookkeeping equal the chunks' progress plus overlong bytes; the counter is never negative, so the clamp never acts |
| `DownloadTheorems.LedgerWithoutExcess` | pkg/engine/worker.go:170-177 | with bodies no longer than asked, counter plus rolled-back bytes never exceed the progress, with equality if and only if no write is mid-bookkeeping |
| `DownloadTheorems.FinalTracker` | pkg/engine/worker.go:65-68 | after a nil return the counter is the full length if and only if nothing was rolled back |
| `DownloadTheorems.StartTruthIff` | pkg/engine/fd_sink.go:69-170 | for every entry point and every failing or working load, truncation and save: a start leaves a true checkpoint if and only if it is guarded (it does not empty the file, or saves a new checkpoint, or the old one would be refused or claims nothing), or all that is claimed is zeros put back |
| `DownloadStale.UnguardedGoesWrong` | pkg/engine/fd_sink.go:35-100 | behind every start that breaks the guard, with a claimed byte that is not zero in the source and no chunk stuck, a kill and one more start lead to a nil return over a file that is not the source |
| `DownloadStale.AcceptedIsTrusted` | pkg/engine/fd_sink.go:149-162 | whatever the file holds, a run that accepts a checkpoint can return nil without ever writing a byte the checkpoint claims |
| `DownloadWitnesses.NilAfterRollback` | pkg/engine/worker.go:65-68 | for every resource of at least two bytes some chain returns nil with bytes rolled back and a counter short of the length |
| `DownloadTheorems.ChainFits` | pkg/engine/fd_sink.go:142-144 | a file no longer than the resource never grows past it, overlong bodies included |
| `DownloadLedger.NextBalanced` | pkg/engine/progress.go:62-97 | the ledger of bytes, completed chunks and active workers balances after every event |
| `DownloadLiveness.MoveDown` | pkg/engine/worker.go:29-186 | every step of a worker uses up part of a bound on what is left, unless a read brings neither a byte nor an end |
| `DownloadLiveness.SomeoneMoves` | pkg/engine/fd_sink.go:233-238 | while a worker has not exited some worker can take a step; the save lock never deadlocks |
| `DownloadLiveness.EveryRunEnds` | pkg/engine/fd_sink.go:206-243 | in every run, whatever interleaves, all workers exit after finitely many steps; the one thing asked is that from some point on no read brings neither a byte nor an end |
| `DownloadLiveness.IdleReadsHang` | pkg/engine/worker.go:153-186 | and that has to be asked: such a read takes a copying worker in two steps back to exactly the state it was in |
| `DownloadLiveness.NeverStuck` | pkg/engine/fd_sink.go:206-243 | and until then the run can always go on |
| `DownloadSuccess.NilReachableIff` | pkg/engine/fd_sink.go:133-262 | after any start, whatever the file holds, a nil return is reachable if and only if no chunk the run begins with is full without its flag; a run that does not resume always begins without one |
| `DownloadSuccess.Drive` | pkg/engine/fd_sink.go:206-261 | from any healthy state a cooperative environment leads the run to a nil return, never writing where the chunks already claim to be done |
| `DownloadResumes.ResumesSucceedIff` | pkg/engine/fd_sink.go:69-166 | from a checkpoint that would be accepted, some chain in which every run resumes reaches a nil return if and only if no chunk of it is full without its flag |
| `DownloadResumes.BlockedForGood` | pkg/engine/worker.go:96-99 | with such a chunk in the checkpoint, as long as every run resumes, no run ever returns nil, and every checkpoint saved on the way has the chunk in it again |
| `DownloadResumes.SaveBlocks` | pkg/engine/fd_sink.go:245-251 | the final save of a cancelled or failed run with such a chunk is where it begins |
| `DownloadWitnesses.CancelLeavesFull` | pkg/engine/worker.go:154-193 | for every resource some chain, cancelled between the last byte and the flag, ends with such a checkpoint |
| `DownloadWitnesses.OverlongLeavesFull` | pkg/engine/worker.go:180-191 | for every resource of at least two bytes some chain ends with one without any cancellation, because a body was longer than asked |
| `DownloadConduct.WorkersAsked` | pkg/engine/fd_sink.go:193-199 | at every point of every multi-part run there are as many workers as asked for, but no more than chunks, and 8 if none were asked for |
| `DownloadConduct.NoReadAfterCancel` | pkg/engine/worker.go:153-160 | once the workers' context is cancelled, a worker that is not in the middle of a read never reads again in that run |
| `DownloadConduct.PauseThenResume` | pkg/engine/fd_sink.go:149-262 | in every chain, a run that was cancelled or failed and whose final save worked is followed, if the next run loads the checkpoint (by name, or through the descriptor with more than one worker), by one that starts with the same chunks, the same file, their sum as its counter, and exactly the unfinished chunks in its queue |
| `DownloadConduct.ErrorStopsAll` | pkg/engine/fd_sink.go:224-230 | at every point of every run with an error on record, the workers' context is cancelled or the worker that recorded it cancels it with its next step |
| `DownloadConduct.FirstErrorStays` | pkg/engine/fd_sink.go:224-230 | the first error on record is never replaced in that run |
| `DownloadDurability.FinishedIsSaved` | pkg/engine/fd_sink.go:232-238 | in every run that keeps a checkpoint and whose saves work, at every point, every finished chunk is in the saved checkpoint, or its worker is between flagging it and its save |
| `DownloadDurability.FinishedSurvivesKill` | pkg/engine/fd_sink.go:149-238 | so if the process is killed once the worker has gone on, and the next run resumes, the chunk is finished there with the same range, and not queued |
| `DownloadConduct.SuccessThenFresh` | pkg/engine/fd_sink.go:104-131 | after a nil return of a run with a checkpoint, a single stream by name included, it is gone, so the next run cannot resume from it |
| `DownloadConduct.KindOfRun` | pkg/engine/fd_sink.go:35-108 | with a concurrency of at least 2 a start begins a multi-part run; with less, through the descriptor a single stream, by name one unless the run resumes, and `DownloadToFile` (pkg/engine/file_sink.go:44-50) none; a stream begins with an empty file |
| `Stream.ReadKeepsOrder` | pkg/engine/stream_sink.go:285-316 | a read returns the next bytes of what is buffered in slot order and loses none; on a stream that is not cancelled it returns bytes if and only if any are readable, ends if and only if none are and all slots are read, waits if and only if none are and the next slot is missing, and otherwise reports that slot's error |
| `Stream.PrefetchStreamReader.Read` | pkg/engine/stream_sink.go:274-317 | the loop equals the specification on open readers, and changes nothing on closed ones |
| `Stream.PrefetchStreamReader.Store` | pkg/engine/stream_sink.go:248-254 | a store after `Close` panics, any other sets one slot |
| `Stream.PrefetchStreamReader.Close` | pkg/engine/stream_sink.go:319-339 | closes once: cancels, drops slots and buffer; a second call changes nothing |
| `Prefetch.ReadStepIsRead` | pkg/engine/stream_sink.go:274-317 | the machine's read has the class's buffer, bytes, waiting and EOF |
| `Prefetch.NextInv` | pkg/engine/stream_sink.go:195-339 | the pipeline's invariant survives every event: worker steps, reads, cancellation, broadcasts, close |
| `PrefetchTheorems.StreamInOrder` | pkg/engine/stream_sink.go:285-316 | returned and unread bytes are slots 0, 1, ... in order, each once; nothing returned is taken back; EOF before `Close` means everything was returned |
| `PrefetchTheorems.Backpressure` | pkg/engine/stream_sink.go:223-233 | chunks downloading or stored are distinct, inside the window, and at most maxPrefetch |
| `PrefetchTheorems.WaitingIsServed` | pkg/engine/stream_sink.go:226-233 | when `Read` waits on an open stream, a worker is awake with its chunk, or idle with it next in the queue, or about to cancel |
| `PrefetchTheorems.SleepersAreBlocked` | pkg/engine/stream_sink.go:226-315 | no wake-up is lost: whoever sleeps on the condition variable has nothing to do |
| `PrefetchTheorems.HealthyBelow` | pkg/engine/stream_sink.go:216-316 | a lexicographic measure of work, bytes and sleepers goes down with every healthy step before EOF |
| `PrefetchTheorems.ReachesEof` | pkg/engine/stream_sink.go:216-316 | every healthy run gets `Read` to EOF, with every slot returned in full |
| `PrefetchTheorems.NotStuck` | pkg/engine/stream_sink.go:216-316 | and until EOF a healthy step is always possible |
| `PrefetchTheorems.TeardownEnds` | pkg/engine/stream_sink.go:216-339 | once a stream is cancelled, by whatever, every run in which something still changes gets to where all workers have left and no read waits, or has panicked |
| `PrefetchTheorems.TeardownGoesOn` | pkg/engine/stream_sink.go:226-316 | and until then something can change, without any fetch succeeding |
| `PrefetchTheorems.PanicIff` | pkg/engine/stream_sink.go:319-339 | after `Close` a store into the nil map is reachable if and only if a worker was downloading or about to store |
| `PrefetchTheorems.EarlyCloseCanPanic` | pkg/engine/stream_sink.go:319-339 | it happens: two steps after the start of any stream with a chunk, closing can end in that store |
| `PrefetchTheorems.EofThenCloseIsSafe` | pkg/engine/stream_sink.go:296-298 | at EOF no worker holds a chunk, so a following `Close` can never be followed by such a store |
| `PrefetchTheorems.StreamIsSourceIff` | pkg/engine/stream_sink.go:235-252 | a stream read to EOF is the source if and only if every chunk's last attempt began at the chunk's start |
| `PrefetchTheorems.RunGrows` | pkg/engine/stream_sink.go:248-311 | delivered slots never change, the index and the returned bytes only grow |
| `Rename.ResolveDestPath` | pkg/engine/file_sink.go:214-242 | the path asked for is the file name, the destination, or their join when the destination is a directory or ends like one; with renaming, for every finite file system the loop ends, at the first candidate not in use, or fails at the first unreadable one; directory and extension are kept |
| `Rename.NumberedName` | pkg/engine/file_sink.go:239-241 | the n-th candidate is base, space, n in parentheses, then the extension, for every split of the name at its last dot behind the last slash |
| `Rename.NumberedKeeps` | pkg/engine/file_sink.go:239-241 | a numbered name is at least four characters longer than the one it is built from, in the same directory, with the same extension |
| `Rename.LongNamesShrink` | pkg/engine/file_sink.go:229-241 | existing names at least as long as the candidate strictly decrease, which ends the loop |
| `Wire.Conn.Read` | pkg/tunnel/dialer.go:20-27 | reads deliver the stream in order, in pieces of the network's choosing, without loss |
| `Wire.ReadFull` | pkg/tunnel/socks5.go:137-141 | all the bytes asked for, or all there are and an error, for every way they arrive |
| `Wire.BufReader.ReadLine` | pkg/tunnel/dialer.go:105-112 | the first line of all that is to come, however it is cut into reads and however long it is |
| `Upgrade.DialPayload` | pkg/tunnel/dialer.go:88-172 | the payload goes out in order; the stream handed over gives exactly the bytes behind the first blank line, or the error the specification gives; the lemmas below say which status lines open and which fail |
| `Upgrade.SendPayload` | pkg/tunnel/dialer.go:92-102 | packets are sent in order, and it fails if and only if the peer stops taking bytes before the end |
| `Upgrade.SkipHeaders` | pkg/tunnel/dialer.go:129-141 | stops right behind the first blank line |
| `Upgrade.PrefixedConn.Read` | pkg/tunnel/dialer.go:20-27 | leftover first, then the connection, nothing lost or repeated; an end means nothing is left |
| `Upgrade.AfterHeadersIff` | pkg/tunnel/dialer.go:129-141 | the tunnel goes on with `body` if and only if the server sent header lines, a blank line, and `body` |
| `Upgrade.HandshakeOpens` | pkg/tunnel/dialer.go:116-157 | for a status line that trims to a protocol, a space, a code and nothing or a space with anything behind it, followed by headers, a blank line and `body`: it opens on `body` if the code is 101, 200 or the positive configured one, and otherwise fails with the status |
| `Upgrade.OpensOnlySo` | pkg/tunnel/dialer.go:108-157 | and it opens on `body` only if such a status line, headers, a blank line and `body` is what the server sent |
| `Upgrade.NoStatusLineIff` | pkg/tunnel/dialer.go:108-112 | it fails for want of a status line if and only if no line end was sent |
| `Upgrade.StatusLineFails` | pkg/tunnel/dialer.go:116-127 | a status line is invalid if and only if it has no space once trimmed; with one, its code is unrecognised if and only if the word behind the first space is no number |
| `Socks.ReadGreeting` | pkg/tunnel/socks5.go:136-151 | consumes exactly the greeting, or gives up on a short or foreign one |
| `Socks.ReadRequest` | pkg/tunnel/socks5.go:157-208 | recovers address and port consuming exactly the request, or the refusal to send |
| `Socks.SocksServer.Handshake` | pkg/tunnel/socks5.go:133-235 | for every input and break point: what the server says, how far it gets, and the target with the unread rest |
| `Socks.SocksServer.Forward` | pkg/tunnel/socks5.go:246-274 | forwards an in-order prefix, all of it if no write fails, then closes the writing side whatever ended the loop, and counts exactly what it read |
| `Socks.Counted` | pkg/tunnel/socks5.go:252-267 | the count is everything if it fits, and otherwise more than fits, by at most one buffer |
| `Socks.SocksServer.HandleConnection` | pkg/tunnel/socks5.go:125-310 | the whole connection: a target is handed over if and only if the client is told code 0 in the twelve bytes that answer it; both directions deliver prefixes behind the handshake, everything if the peers take it, both writing sides are closed, and the 64-bit counters grow, wrapping around, by exactly what was read, the piece of a failing write included |
| `Socks.CodesIff` | pkg/tunnel/socks5.go:136-235 | what a client decodes from the answer as in section 6 of RFC 1928, for every input: 0 if and only if it asked to connect, there is a tunnel and the dial works; 4 without a tunnel, 5 when the dial fails, 7 for another version or command, 8 for an unknown address type, each exactly then; no code exactly when no reply was sent |
| `Socks.HandshakeIff` | pkg/tunnel/socks5.go:136-209 | the server comes to dial `host` and `port` with `rest` unread if and only if the client sent a greeting, a CONNECT request for them, and `rest` |
| `QueueManager.DownloadQueueManager.LoadTasksFromDatabase` | android/app/src/main/java/com/downloadengine/app/service/DownloadQueueManager.java:64-75 | every row becomes a task with its status, DOWNLOADING becoming PAUSED in memory and in the row |
| `QueueManager.DownloadQueueManager.PumpQueue` | android/app/src/main/java/com/downloadengine/app/service/DownloadQueueManager.java:238-259 | the two loops take the queue to the state machine's pumped state |
| `QueueManager.DownloadQueueManager.Pause` | android/app/src/main/java/com/downloadengine/app/service/DownloadQueueManager.java:319-328 | a running task is paused and the queue pumped; otherwise nothing changes |
| `QueueManager.DownloadQueueManager.Resume` | android/app/src/main/java/com/downloadengine/app/service/DownloadQueueManager.java:330-338 | a paused or failed task is queued and the queue pumped; otherwise nothing changes |
| `QueueManager.DownloadQueueManager.Cancel` | android/app/src/main/java/com/downloadengine/app/service/DownloadQueueManager.java:340-349 | the state machine's cancel; `QueueEffects.CancelTakesAway` says what that takes away |
| `QueueManager.DownloadQueueManager.RemoveTask` | android/app/src/main/java/com/downloadengine/app/service/DownloadQueueManager.java:303-317 | for any task object, listed or not: the object leaves the list if it is there, the row with its id goes, and nothing else happens; it is the state machine's removal when the object stands where its id is first listed |
| `QueueManager.DownloadQueueManager.Enqueue` | android/app/src/main/java/com/downloadengine/app/service/DownloadQueueManager.java:165-181 | a new task goes in at the front, QUEUED and pumped or PAUSED |
| `QueueManager.DownloadQueueManager.EnqueueBatch` | android/app/src/main/java/com/downloadengine/app/service/DownloadQueueManager.java:185-218 | the batch goes in at the front, in order, and the queue is pumped |
| `QueueManager.DownloadQueueManager.ResumeAll` | android/app/src/main/java/com/downloadengine/app/service/DownloadQueueManager.java:351-365 | all paused and failed tasks are queued, with a pump only if there were any |
| `QueueManager.DownloadQueueManager.StopAll` | android/app/src/main/java/com/downloadengine/app/service/DownloadQueueManager.java:367-384 | running and waiting tasks are paused |
| `QueueManager.DownloadQueueManager.CancelAll` | android/app/src/main/java/com/downloadengine/app/service/DownloadQueueManager.java:386-411 | only completed tasks and their rows stay |
| `QueueManager.DownloadQueueManager.DeleteAll` | android/app/src/main/java/com/downloadengine/app/service/DownloadQueueManager.java:413-433 | no task and no row is left |
| `QueueManager.DownloadQueueManager.PauseAllActive` | android/app/src/main/java/com/downloadengine/app/service/DownloadQueueManager.java:435-441 | the loop of pauses, each with its pump |
| `QueueManager.DownloadQueueManager.SetWifiOnly` | android/app/src/main/java/com/downloadengine/app/service/DownloadQueueManager.java:91-98 | pauses everything if the mode now blocks, pumps otherwise |
| `QueueManager.DownloadQueueManager.OnNetworkChanged` | android/app/src/main/java/com/downloadengine/app/service/DownloadQueueManager.java:513-523 | pauses everything when disconnected or blocked, pumps otherwise |
| `QueueManager.DownloadQueueManager.OnProgress` | android/app/src/main/java/com/downloadengine/app/service/DownloadQueueManager.java:451-470 | writes DOWNLOADING into the row of a listed task, whatever its status |
| `QueueManager.DownloadQueueManager.OnEnded` | android/app/src/main/java/com/downloadengine/app/service/DownloadQueueManager.java:472-510 | sets a listed task's final status in memory and in its row, and posts a pump if and only if the task is listed |
| `QueueManager.DownloadQueueManager.constructor` | android/app/src/main/java/com/downloadengine/app/service/DownloadQueueManager.java:57-62 | a new process stands exactly where a reload of the database leads |
| `QueueEffects.PumpStarts` | android/app/src/main/java/com/downloadengine/app/service/DownloadQueueManager.java:238-259 | a pump starts some of the tasks that waited, each with its row, and changes nothing else |
| `QueueEffects.PauseStops` | android/app/src/main/java/com/downloadengine/app/service/DownloadQueueManager.java:319-328 | the task with the id, and its row, is paused if it ran, and no other changes except by being started; otherwise, and for an unknown id, nothing changes |
| `QueueEffects.ResumeRequeues` | android/app/src/main/java/com/downloadengine/app/service/DownloadQueueManager.java:330-338 | the task with the id, and its row, waits or runs if it was paused or had failed, and no other changes except by being started; otherwise, and for an unknown id, nothing changes |
| `QueueEffects.CancelTakesAway` | android/app/src/main/java/com/downloadengine/app/service/DownloadQueueManager.java:340-349 | afterwards no task and no row has the id; every other task is there in the same order, every other row is there, and each is unchanged or was waiting and has been started; an unknown id changes nothing |
| `QueueEffects.RemoveTakesAway` | android/app/src/main/java/com/downloadengine/app/service/DownloadQueueManager.java:303-317 | the same, with every other task and row unchanged |
| `QueueEffects.EnqueueAdds` | android/app/src/main/java/com/downloadengine/app/service/DownloadQueueManager.java:165-181 | the new task is first, waiting or started, or paused with nothing else changed; the others stand behind it in order, and every row is there |
| `QueueEffects.BatchAdds` | android/app/src/main/java/com/downloadengine/app/service/DownloadQueueManager.java:185-218 | the same for all new tasks, in their order |
| `QueueEffects.StopAllPauses` | android/app/src/main/java/com/downloadengine/app/service/DownloadQueueManager.java:367-384 | every task that ran or waited is paused, with its row; every other task and row stays |
| `QueueEffects.ResumeAllRequeues` | android/app/src/main/java/com/downloadengine/app/service/DownloadQueueManager.java:351-365 | every paused or failed task waits or runs, with its row; others are unchanged or were waiting and have been started |
| `QueueEffects.CancelAllKeepsCompleted` | android/app/src/main/java/com/downloadengine/app/service/DownloadQueueManager.java:386-411 | the tasks left are the completed ones, all of them, in order; the rows left are those of no other task, unchanged; nothing is started |
| `QueueEffects.DeleteAllEmpties` | android/app/src/main/java/com/downloadengine/app/service/DownloadQueueManager.java:413-433 | no task and no row is left |
| `QueueEffects.CallbacksSet` | android/app/src/main/java/com/downloadengine/app/service/DownloadQueueManager.java:451-510 | completion and failure set the status of the task with the id, in memory and row; progress its row alone; an unknown id changes nothing |
| `QueueEffects.WifiOnlyHolds` | android/app/src/main/java/com/downloadengine/app/service/DownloadQueueManager.java:91-98 | if the mode now holds the queue, every running task is paused, with its row, and nothing else changes; otherwise it is a pump |
| `QueueEffects.NetworkHolds` | android/app/src/main/java/com/downloadengine/app/service/DownloadQueueManager.java:513-523 | the same for a change of network; without a connection and not held, nothing runs afterwards if and only if nothing ran or nobody waited ahead of the first task that did |
| `QueueTheorems.PumpFills` | android/app/src/main/java/com/downloadengine/app/service/DownloadQueueManager.java:238-259 | never past the cap; unless blocked, the pump ends with the cap reached or nobody QUEUED; tasks start in list order and nothing else changes |
| `QueueTheorems.ApplyGood` | android/app/src/main/java/com/downloadengine/app/service/DownloadQueueManager.java:64-523 | every operation keeps the cap and distinct ids |
| `QueueTheorems.CapHolds` | android/app/src/main/java/com/downloadengine/app/service/DownloadQueueManager.java:44 | over every sequence of operations, callbacks and restarts the running tasks are at most `mMaxConcurrent` |
| `QueueTheorems.AllAtOnce` | android/app/src/main/java/com/downloadengine/app/service/DownloadQueueManager.java:351-384 | stopping all leaves nothing running or waiting, resuming all nothing paused or failed; completed tasks and the order stay |
| `QueueTheorems.PauseAllIff` | android/app/src/main/java/com/downloadengine/app/service/DownloadQueueManager.java:435-441 | pausing all leaves nothing running if and only if the queue is blocked, nothing ran, or no task waited ahead of the first one running |
| `QueueWitnesses.PauseAllRestarts` | android/app/src/main/java/com/downloadengine/app/service/DownloadQueueManager.java:435-441 | it happens: for every cap a history of plain operations reaches a queue in which pausing all leaves a task running |
| `QueueTheorems.ReloadIsClean` | android/app/src/main/java/com/downloadengine/app/service/DownloadQueueManager.java:64-75 | from any database, nothing is DOWNLOADING after a reload, every row is listed once, and other statuses stay |
| `QueueTheorems.CrashKeepsTasks` | android/app/src/main/java/com/downloadengine/app/service/DownloadQueueManager.java:451-470 | a restart after any operation of any history brings every task back with its status, except, exactly, where a late progress report overwrote the row |
| `QueueTheorems.CrashMidOperation` | android/app/src/main/java/com/downloadengine/app/service/DownloadQueueManager.java:319-384 | the same within operations that change statuses, at any point between two writes, also with the last change in memory but not in its row: it is then as if not made |
| `QueueWitnesses.LateProgressForgets` | android/app/src/main/java/com/downloadengine/app/service/DownloadQueueManager.java:451-470 | it happens: a history in which a completed task comes back PAUSED |
| `QueueTheorems.SlotLeftEmpty` | android/app/src/main/java/com/downloadengine/app/service/DownloadQueueManager.java:287-293 | stopping a task without a pump leaves a slot empty with somebody waiting, exactly when it ran, all slots were taken and another was QUEUED |
| `QueueTheorems.RemoveLeavesEmpty` | android/app/src/main/java/com/downloadengine/app/service/DownloadQueueManager.java:303-317 | taking a task off the list does so in exactly the same case |
| `QueueTheorems.ReloadLeavesEmpty` | android/app/src/main/java/com/downloadengine/app/service/DownloadQueueManager.java:64-75 | a new process leaves slots empty exactly when some row is QUEUED |
| `QueueTheorems.NetworkLeavesEmpty` | android/app/src/main/java/com/downloadengine/app/service/DownloadQueueManager.java:513-523 | a lost connection reported as Wi-Fi leaves slots empty exactly when the queue was blocked with nothing running and somebody waiting |
| `QueueTheorems.StaysFullIff` | android/app/src/main/java/com/downloadengine/app/service/DownloadQueueManager.java:64-523 | no task waits while a slot is free: for every operation, exactly when it keeps that so |
| `QueueWitnesses.FreedSlotStaysEmpty` | android/app/src/main/java/com/downloadengine/app/service/DownloadQueueManager.java:287-317 | for every cap a history ends, with a removed task or a failed native start, in a free slot with somebody waiting |
| `QueueWitnesses.RestartLeavesSlotsEmpty` | android/app/src/main/java/com/downloadengine/app/service/DownloadQueueManager.java:64-75 | for every cap a history ends so with a restart of the process |
| `QueueWitnesses.LostNetworkLeavesSlotsEmpty` | android/app/src/main/java/com/downloadengine/app/service/DownloadQueueManager.java:513-523 | for every cap a history ends so with a lost network reported as Wi-Fi |
| `QueueRaces.CapHolds` | android/app/src/main/java/com/downloadengine/app/service/DownloadQueueManager.java:238-262 | the cap holds at every micro-step of the pump, whatever unsynchronised callbacks and operations do in between |
| `DownloadCalls.CallsAreCalls` | pkg/engine/worker.go:19-79 | whenever a worker of a chain goes from the head of the retry loop to its verdict, its chunk and error are those of some sequential call on the same chunk, whatever interleaved; file and counters, which others touch, are not compared |
| `DownloadCalls.TailIsRetry` | pkg/engine/worker.go:29-78 | a call can be read from any attempt on: the rest of the scripts decides the rest of the call |

## Left out

- HTTP client, TLS, DNS, redirects and `Probe`: network and library code; a reply is a status, a parsed range and a body cut into reads.
- URL and private-host validation, filename extraction, MIME tables: string plumbing and lookup tables.
- The JSON text of checkpoints and the calls that replace the state file: `Save` and `LoadCheckpoint` are an atomic cell that may fail.
- Wall-clock time, tickers, speed and remaining-time estimates: no value the theorems speak of depends on them.
- The single-stream loops of pkg/engine/file_sink.go:144 and pkg/engine/stream_sink.go:54, for servers without ranges: the loop of pkg/engine/fd_sink.go:264, which is in the machine, once more and without a checkpoint.
- `DownloadToFile`: its error from `file.Sync` (pkg/engine/file_sink.go:137-139) is not modelled; `Sync` never changes the file.
- `DownloadToFileWithResume`: failures to create a directory or open the file end the call before anything happens; with `AutoRename` a run after a failed resume writes another file, and chains over several files are left out.
- The `Retries` field of a chunk is counted in `Worker` only, not in the machine, and the single-stream run's tracker is left out.
- DownloadLiveness.EveryRunEnds: a run whose reads bring neither a byte nor an end forever is not said to end, because it does not; `DownloadLiveness.IdleReadsHang`.
- Prefetch.WorkerStep: a whole download is one step, as its buffer is private until stored; the stream's tracker is not in the machine, and a timeout of the context is a cancellation.
- PrefetchTheorems.PanicIff: says what can happen after `Close`, not that the Go scheduler makes it happen.
- Rename.ResolveDestPath: `filepath.Join` is a parameter, the file system does not change during the call, and only `/` separates directories.
- ContentRanges.ParseContentRange: spaces beyond U+00FF are not taken as spaces.
- Upgrade.DialPayload: starts at the injected payload; `strings.TrimSpace` and `strconv.Atoi` are parameters, dialling, deadlines and logging are left out, and a connection without leftover bytes is a `PrefixedConn` with an empty prefix.
- Socks.SocksServer.HandleConnection: the two loops run one after the other, which is no restriction as they share nothing; for a connection without `CloseWrite`, where the code closes both directions instead (pkg/tunnel/socks5.go:271-273), they do, and it is left out, as are the final `Close` calls and how an address is printed for dialling.
- The set of open connections, accept loop and shutdown of the SOCKS server: bookkeeping without a claim of its own.
- `pkg/tunnel` SSH, VPN, system proxy, manager, web server, DNS forwarder, payload formatting: foreign libraries and operating-system calls.
- `cmd/*`, the JNI bridge and the Python SDK: flag parsing, process plumbing, foreign calls.
- Android activities, services, browser and storage: user interface and platform calls; of the queue only statuses and the status column are kept, and native pause and cancel calls are assumed to act without answering inside the call.
- A failed native start (DownloadQueueManager.java:287-293): of it the status it sets, in memory and in the row.
- QueueManager.DownloadQueueManager.OnEnded: the pump it posts is an operation of its own, since it runs later, on the main thread, and others may come in between.
- QueueTheorems.CrashKeepsTasks: crashes fall between operations, and with `QueueTheorems.CrashMidOperation` between the writes of one that changes statuses; those between the two writes of an insertion, which stores the row first, or of a removal, which deletes it last, leave a row without a listed task and are left out.
- QueueManager.DownloadQueueManager.RemoveTask: that a task object not listed under its id would take away another task's row is in its contract, not in the state machine; ids are random and each has one object.
- DownloadCalls.CallsAreCalls: the file, the tracker and the completed count of a call are not compared with the machine's; the ledger and safety theorems speak of those.
- QueueRaces.CapHolds: counts statuses, as the pump does; two racing `resume` calls could still start one task twice natively.
