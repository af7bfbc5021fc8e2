# Sabrage: a Dafny model of its protocols

Sabrage is the Rust and Svelte front-end of the wine-vr pipeline. This project models the parts of it
whose correctness is not visible in any single function body, and proves what they are for:

* **The log tailer** (`Splitter.dfy`, `Tailer.dfy`, `LineTrace.dfy`, `TailRun.dfy`, `TailClaims.dfy`,
  `ShortLines.dfy`, `TailLimits.dfy`, `PollAnswers.dfy`, `TailFaults.dfy`, `TailBursts.dfy`, `Preload.dfy`,
  `LateEntry.dfy`). `Tailer` is a class whose `Poll`
  is proved equal to a function of its state and of what each of its system calls answered. `LogWorld`
  is the rest of the system: appends, truncations in place, replaced inodes, vanishing paths, before a
  poll or in the middle of one. `TailRun` proves what a consumer that clears on `rotated` and then
  appends `lines` has on screen after any run.
* **Atomic publication** (`DurableFs.dfy`, `Publish.dfy`, `PublishClaims.dfy`, `ExclusiveCreate.dfy`,
  `Executor.dfy`). Any number of `write_atomic`, `create_new` and `copy_atomic` calls take turns, system
  call by system call, on a directory of which a power loss may keep any recent entry and any unsynced
  content. `Executor` holds the routines as straight-line code, each proved to be such a run, with its
  answer and its files read off the outcomes of its system calls.
* **Dry runs** (`OnePublication.dfy`, `DryRun.dfy`): what one publication amounts to, and what the dry
  executor foretells about the real one.
* **Quoting** (`Quoting.dfy`, `ZshEncode.dfy`): printers, and readers for AppleScript literals, for
  `/bin/sh` lines (POSIX.1-2017, Shell Command Language, sections 2.2.1, 2.2.2 and 2.3) and for sourced
  zsh files, with the proof that the readers undo the printers on every string.
* **Cancelling a process tree** (`Supervise.dfy`), **the settings write queue** (`SettingsQueue.dfy`,
  `PromiseChain.dfy`), **the quit dialog** (`QuitDialog.dfy`) and **path normalisation** (`LogicalPath.dfy`).

`Shared.dfy` holds what several of them use. `dafny verify dfyconfig.toml` checks everything.

## What the code does not do

Each of these is stated with the exact condition under which the code is right.

* `poll` evaluates `rotated || (carry == 0 && take(pending_rotation))`. A poll that itself finds a
  rotation leaves an older marker set, and the next undisturbed poll announces the same incarnation a
  second time: `TailFaults.AnnouncedTwice` (if and only if the older marker was set). After a read that
  straddled a rewrite this is the ordinary case, and lines are lost from the screen:
  `TailFaults.LosesALine` is such a run. With the marker taken in either case (`repaired` in
  `TailModel.PollWith`) the consumer theorem also covers straddled reads.
* A second replacement, or a removal, while lines of an unannounced incarnation are queued sends those
  lines out as the older file's: `TailFaults.MergedUnderOneFlag` (if and only if such lines are queued);
  `TailBursts.MergesTwoFiles` is such a run.
* A rewrite between two reads of one poll is not seen by the second witness check if the poll began at
  byte 0, or if the new text repeats the bytes before the cursor: `TailClaims.MissedStraddle` (if and only
  if). `TailFaults.MixedBatch` is a batch with lines of both texts.
* A read that fails on the poll that found a rotation loses its announcement if and only if it failed
  before the first byte and no older marker was set: `TailFaults.FailedReadAfterRotation`;
  `TailFaults.LosesAnAnnouncement` is such a run. The one caller stops tailing at the error.
* `open(from_end)` leaves the splitter without the head of the current line when the preload window
  completes no line and does not begin behind a delimiter, or when no lines are preloaded and the file
  does not end in LF; the rest of that line is later delivered as if it were whole:
  `Preload.PreloadIsTail` and `Preload.LaterLinesAreWhole` give the equivalence, `TailFaults.HeadlessLine`
  a file, and `LateEntry.ConsumerTheoremLate` what the consumer then shows.
* `truncated` is not raised when the read loop stops with exactly 2000 lines queued, although bytes may
  be left unread: `TailLimits.NotTruncatedMeansUpToDate` (if and only if), `TailBursts.FullBatchHidesMore`.
* A cancelled `spawn_streamed` does not always return: if the first drain has taken the end of the stdout
  pump and times out on the stderr pump, the second drain awaits the finished handle again, which is a
  panic of tokio's `JoinHandle`. `Supervise.CancellationKillsTheTree` (if and only if), `Supervise.CancelledCallPanics`.
* An answer of Cancel does not call off an earlier Stop or Keep that is still being carried out; the app
  then exits without asking again: `QuitDialog.CancelIsTheLastWord` (if and only if),
  `QuitDialog.StopOutlivesCancel`.
* `create_new` may report an error although it has created the file, when only the directory sync failed:
  `OnePublication.FailedYetCreated` (if and only if), `OnePublication.CreatesAndFails`.
* `copy_atomic` syncs nothing, so a power loss may bring back anything under its name:
  `PublishClaims.CopiesAreNotDurable` (if and only if), `OnePublication.CopyIsLost`. Its own comment claims no more than safety against a killed
  process and a failed copy, which is `PublishClaims.ReadersSeeWholeFiles`.
* `performSave` sets `error` and then calls `load()`, which clears it first: after a rejected save the
  error is still shown if and only if the reload fails too, `SettingsQueue.ErrorAfterRejection`.

## Model

| member | source | states |
|---|---|---|
| Splitter.ChunkSplitter.PushWith | sabrage/crates/sabrage-core/src/process.rs:235-252 | The byte loop emits and keeps exactly what the splitting function says of its state and input, however the input is cut. |
| Splitter.ChunkSplitter.FinishWith | sabrage/crates/sabrage-core/src/process.rs:260-268 | At the end of the stream a pending CR or a partial line is flushed once, and nothing otherwise. |
| Splitter.CutIndependent | sabrage/crates/sabrage-core/src/process.rs:235-252 | Pushing a and then b emits the same chunks and reaches the same state as pushing a followed by b. |
| Splitter.SplitPrintsBack | sabrage/crates/sabrage-core/src/process.rs:206-275 | For every input the chunks with their terminators concatenate to the input with each CRLF written as LF, no chunk holds a delimiter, and only the last may end the stream. |
| Splitter.WellFormedChunksUnique | sabrage/crates/sabrage-core/src/process.rs:206-217 | Only one such list of chunks prints to a given text, so print-back determines the split. |
| TailModel.UpdateSignature | sabrage/crates/sabrage-core/src/logs.rs:244-255 | Both branches leave the last 64 bytes of everything read. |
| TailModel.WitnessOfWitness | sabrage/crates/sabrage-core/src/logs.rs:242-255 | Updating the witness chunk by chunk is taking the witness of the whole. |
| Tailing.Tailer.Open | sabrage/crates/sabrage-core/src/logs.rs:272-332 | For every answer and error of its system calls, opening fails or yields the specified cursor, witness, preloaded queue and splitter; a missing file leaves nothing open, a file that has shrunk cannot be preloaded. |
| Tailing.OpensWhileGrowing | sabrage/crates/sabrage-core/src/logs.rs:287-316 | Appends that land while the log is being opened make no difference. |
| Tailing.OpensUnless | sabrage/crates/sabrage-core/src/logs.rs:272-332 | Opening fails if and only if a call that it depends on fails or the file has shrunk under the preload; otherwise the cursor is at the end or the beginning as asked for, and of a missing file nothing is open. |
| Tailing.Tailer.Poll | sabrage/crates/sabrage-core/src/logs.rs:350-523 | The imperative poll, for every combination of answers and errors of its system calls, computes the new state and the batch of the specification on which all run theorems are proved. |
| Tailing.Tailer.ReadSome | sabrage/crates/sabrage-core/src/logs.rs:443-472 | The budgeted read loop with its early stop at the line cap and its forced break of over-long lines. |
| Tailing.Tailer.DrainCapped | sabrage/crates/sabrage-core/src/logs.rs:527-546 | At most 2000 lines leave the front of the queue, never past the carry boundary, and the boundary moves with them. |
| Tailing.LoopKeepsQueue | sabrage/crates/sabrage-core/src/logs.rs:457-493 | The read only appends to the queue, so truncating to the old length restores it. |
| LineTrace.LinesHoldEveryByte | sabrage/crates/sabrage-core/src/logs.rs:466-471 | Forced breaks or not, completed lines plus the partial line hold exactly the non-delimiter bytes read, in order. |
| LineTrace.ChunkTraced | sabrage/crates/sabrage-core/src/logs.rs:460-471 | One read keeps queue, splitter and witness in step with the file, and breaks a line only when at least 1 MiB of it is held back. |
| LineTrace.LoopTraced | sabrage/crates/sabrage-core/src/logs.rs:439-472 | If each read finds a prefix of the file, the loop takes exactly the bytes at the cursor, and queue, splitter and witness are those of the file's first bytes. |
| LogWorld.TextsGrow | sabrage/crates/sabrage-core/src/logs.rs:16-20 | No event shortens the text of an incarnation; appends alone leave path and identity alone. |
| TailRun.StepKeeps | sabrage/crates/sabrage-core/src/logs.rs:350-523 | One file event, or one poll during which anything at all may happen to the log, straddled or taking its bytes from one incarnation, keeps screen, queue, carry, marker, cursor, witness and splitter in step with the incarnations they belong to. |
| TailClaims.ConsumerTheorem | sabrage/crates/sabrage-core/src/logs.rs:133-141 | In every run, with appends, truncations, replacements and removals before, during and between the polls, as long as each poll meets the stated conditions: the screen is a prefix of the lines of a single incarnation, where only a line that had reached the 1 MiB bound counts as several. |
| ShortLines.ConsumerShowsPrefix | sabrage/crates/sabrage-core/src/logs.rs:350-546 | If the incarnation shown has no line near the bound, the screen is literally a prefix of the split of its text. |
| Preload.ConsumerTheoremAtEnd | sabrage/crates/sabrage-core/src/logs.rs:266-271 | The same for a log opened from its end with its residue kept, with a run of consecutive lines instead of a prefix. |
| Preload.ConsumerShowsTail | sabrage/crates/sabrage-core/src/logs.rs:266-316 | Without lines near the bound, the screen is literally consecutive lines of one text, from the first preloaded line on, or from the first of all after a rotation. |
| LateEntry.ConsumerTheoremLate | sabrage/crates/sabrage-core/src/logs.rs:290-316 | The same for an opening that loses the residue: the screen is the first lines of the text from the byte on at which it was entered, or, after a rotation, from its beginning; literally so without lines near the bound. |
| LateEntry.LateLines | sabrage/crates/sabrage-core/src/logs.rs:303-307 | The lines of a text entered at any byte are the last lines of the whole text, except that the first may lack its head. |
| TailClaims.DetectsReplacement | sabrage/crates/sabrage-core/src/logs.rs:364-391 | In an orderly run, where the path may vanish or be given to another file even during a poll, a poll finds a rotation if and only if the path names a file that is not the one being read: nothing open, another inode, or a newer text under what has been read. |
| TailClaims.DueAnnouncedOnce | sabrage/crates/sabrage-core/src/logs.rs:509-515 | In every run at all whose polls return, straddled reads included: with the repaired line every announcement that falls due is made exactly once or is the one still waiting; with the code as it is, if no marker goes stale. |
| TailClaims.AnnouncedExactlyOnce | sabrage/crates/sabrage-core/src/logs.rs:512-515 | Without straddled reads, and with each replacement announced before the next switch, announcements and replaced incarnations balance, one at most still waiting. |
| TailClaims.OpeningsAreNew | sabrage/crates/sabrage-core/src/logs.rs:364-391 | Every incarnation opened is newer than all before it, so none is announced twice. |
| TailClaims.AnnouncedOnceFromStart | sabrage/crates/sabrage-core/src/logs.rs:350-523 | Both together, for every orderly run from the opening of a log. |
| ShortLines.AppendOnlySplit | sabrage/crates/sabrage-core/src/logs.rs:419-546 | For every interleaving of appends and polls, during polls too, on a file without lines near the bound: delivered lines followed by the queue are the split of the first `offset` bytes, the splitter holds exactly the residue, and nothing is flagged. |
| ShortLines.AppendOnlyUnbroken | sabrage/crates/sabrage-core/src/logs.rs:466-471 | The same for every file, in every run in which no line was broken by force. |
| TailClaims.AppendOnlyExact | sabrage/crates/sabrage-core/src/logs.rs:419-546 | Forced breaks or not, screen, queue and splitter hold exactly the delimiter-free bytes before the cursor, and nothing is flagged. |
| TailClaims.NoFalseAlarm | sabrage/crates/sabrage-core/src/logs.rs:375-391 | More of the same file is never taken for a rotation and never for a straddled read. |
| TailClaims.MissedRewrite | sabrage/crates/sabrage-core/src/logs.rs:375-391 | A same-inode rewrite is missed by the first check if and only if it reaches the cursor and repeats the 64 bytes before it. |
| TailClaims.MissedStraddle | sabrage/crates/sabrage-core/src/logs.rs:474-486 | A rewrite inside the read window is missed by the second check under the same condition on what was read before the poll, and always if the poll began at byte 0. |
| TailLimits.PollBounds | sabrage/crates/sabrage-core/src/logs.rs:151-184 | However it ends, one poll takes at most 1 MiB from the file, delivers at most 2000 lines, keeps the queue within 1999 + 65536 lines once it is there, and the splitter's buffer below 1 MiB + 256 KiB. |
| TailLimits.OpeningBounds | sabrage/crates/sabrage-core/src/logs.rs:290-316 | The bounds hold after every opening; a preload is at most the lines asked for. |
| TailLimits.RunBounds | sabrage/crates/sabrage-core/src/logs.rs:350-546 | Over every run, whatever happens to the file, buffer and queue stay within the bounds, or the queue within the preload. |
| TailLimits.PollProgress | sabrage/crates/sabrage-core/src/logs.rs:443-546 | On an unchanging file each poll moves the cursor or else shortens the queue, until nothing is left. |
| TailLimits.EverythingArrives | sabrage/crates/sabrage-core/src/logs.rs:161-171 | From any state in which the tailer reads the file that the path names, whatever is queued, carried or due, and however many reads each poll makes: if the file has stopped changing, two polls a byte, one a queued line and one for an announcement put every complete line on screen, which then are those of the file if no line comes near the bound. |
| TailLimits.NotTruncatedMeansUpToDate | sabrage/crates/sabrage-core/src/logs.rs:142-146 | A batch that is not truncated leaves something behind if and only if the loop stopped at exactly 2000 queued lines with bytes to go; a line left queued always means truncated. |
| TailBursts.FullBatchHidesMore | sabrage/crates/sabrage-core/src/logs.rs:457-458 | A still file of 2001 lines of which one poll delivers 2000, not truncated, and leaves the last unread. |
| PollAnswers.TruncatedMeans | sabrage/crates/sabrage-core/src/logs.rs:509-521 | Of every poll that returns, whatever it finds: `truncated` if and only if a line is left queued or an undisturbed read took the whole 1 MiB. |
| PollAnswers.RotatedMeans | sabrage/crates/sabrage-core/src/logs.rs:393-522 | Of every poll that returns: `rotated` if and only if it read, undisturbed, and had found a rotation itself with nothing queued, or came behind the boundary with an announcement due. |
| PollAnswers.BatchIsFull | sabrage/crates/sabrage-core/src/logs.rs:527-546 | Of every poll that returns: no queued line is lost or overtaken, and exactly 2000 lines go out, or all there are, or all up to the boundary between two files. |
| PollAnswers.FailsWhen | sabrage/crates/sabrage-core/src/logs.rs:346-486 | A poll fails if and only if a call that it depends on fails; a missing file is no failure. |
| PollAnswers.FailedPollLeaves | sabrage/crates/sabrage-core/src/logs.rs:439-486 | A failed poll changes nothing if it had not read, and otherwise keeps what it read, queued and in the witness, behind a cursor that has not moved. |
| PollAnswers.StartsOverWhen | sabrage/crates/sabrage-core/src/logs.rs:368-416 | A poll starts over at byte 0 if nothing is open, the identity differs, the file is shorter than the cursor, or the 64 bytes before it differ; otherwise it stays on its file and moves the cursor by what it read. |
| PollAnswers.VanishedThenFound | sabrage/crates/sabrage-core/src/logs.rs:355-371 | While the path is gone the queue is delivered unflagged; whatever file is found next is read from byte 0. |
| PollAnswers.ReadTakes | sabrage/crates/sabrage-core/src/logs.rs:445-454 | One read takes the bytes at the cursor, 64 KiB or up to the budget or the end of the file. |
| TailLimits.StraddleUndone | sabrage/crates/sabrage-core/src/logs.rs:474-507 | A straddled read delivers and keeps only what was queued before it, flags nothing, and the next poll that finds the file starts at byte 0. |
| TailFaults.AnnouncedTwice | sabrage/crates/sabrage-core/src/logs.rs:512-515 | After a rotation found with an empty queue, the next undisturbed poll announces it again if and only if an older marker was set; never with the repaired line. |
| TailFaults.MergedUnderOneFlag | sabrage/crates/sabrage-core/src/logs.rs:355-416 | At a vanish or a rotation behind a backlog, what the consumer is shown under the old announcement is the lines of the incarnation on screen if and only if no queued line is unannounced; otherwise the next incarnation's lines follow them. |
| TailBursts.MergesTwoFiles | sabrage/crates/sabrage-core/src/logs.rs:355-416 | A run of six steps after which the screen holds the lines of two files, one behind the other; the repaired line does not prevent it. |
| TailFaults.LosesALine | sabrage/crates/sabrage-core/src/logs.rs:488-515 | A run with one straddled read after which the code shows only the second of the file's two lines, and the repaired code shows both. |
| TailFaults.FailedReadLooksLikeRotation | sabrage/crates/sabrage-core/src/logs.rs:445-458 | A failed read keeps queue and cursor out of step; the next poll notices if and only if the witness differs. |
| TailFaults.FailedReadAfterRotation | sabrage/crates/sabrage-core/src/logs.rs:393-458 | A failed read on the poll that found a rotation: it is found again if and only if a byte had been read, and else goes unannounced unless an older marker was set. |
| TailFaults.LosesAnAnnouncement | sabrage/crates/sabrage-core/src/logs.rs:393-458 | A run with such a read after which the screen shows the lines of two texts, with the code as it is and with line 515 repaired. |
| TailFaults.MixedBatch | sabrage/crates/sabrage-core/src/logs.rs:437-486 | A poll from byte 0 with a rewrite between its two reads delivers lines of both texts in one unflagged batch. |
| Preload.SyncMidLine | sabrage/crates/sabrage-core/src/logs.rs:303-314 | A splitter started late only misses the head of one line: from the first completed chunk on it agrees with the full split. |
| Preload.PreloadIsTail | sabrage/crates/sabrage-core/src/logs.rs:290-316 | The preload is the last complete lines of the file, as many as asked for or as the window holds, and the splitter holds the file's residue if and only if the window completes a line or begins behind a delimiter. |
| Preload.LaterLinesAreWhole | sabrage/crates/sabrage-core/src/logs.rs:311-314 | The lines completed after the opening are the file's own, whatever is appended, if and only if the residue was kept. |
| TailFaults.HeadlessLine | sabrage/crates/sabrage-core/src/logs.rs:290-316 | A log ending in the middle of a line, opened from its end: the rest of the line is delivered as if it were whole. |
| Publish.MoveTouchesNames | sabrage/crates/sabrage-core/src/executor.rs:818-947 | Whatever system call a caller makes, only its temp and its path change their entry, and a path can gain only the inode the caller publishes. |
| Publish.MoveTouchesInodes | sabrage/crates/sabrage-core/src/executor.rs:818-947 | At most the caller's own unpublished inode changes, or a new one appears. |
| Publish.StepKeeps | sabrage/crates/sabrage-core/src/executor.rs:781-947 | Any step of any caller, failing or not, keeps every final name on the old file or on an inode that a caller published complete, and synced unless it was a copy. |
| PublishClaims.CrashAtomicity | sabrage/crates/sabrage-core/src/executor.rs:805-858 | At every crash point of every interleaving a path comes back as the old file or one caller's complete bytes and mode. |
| PublishClaims.SoleWriter | sabrage/crates/sabrage-core/src/executor.rs:805-858 | One write_atomic on a path: old file or new bytes under the old mode (0644 if fresh) at every crash point, the latter for certain after Ok. |
| PublishClaims.DurableAfterOk | sabrage/crates/sabrage-core/src/executor.rs:853-877 | After Ok, where directories can be synced, a power loss brings back the caller's file or a later one, never the old one. |
| PublishClaims.ReadersSeeWholeFiles | sabrage/crates/sabrage-core/src/executor.rs:762-803 | While the system is up no reader ever sees part of a file, copies included. |
| PublishClaims.CopiesAreNotDurable | sabrage/crates/sabrage-core/src/executor.rs:781-803 | A published inode may come back with any content if and only if its caller was copy_atomic. |
| OnePublication.CopyIsLost | sabrage/crates/sabrage-core/src/executor.rs:781-803 | Every copy with the directory to itself has a run in which it returns Ok and a power loss may then bring back any file at all. |
| PublishClaims.TempIsPrivate | sabrage/crates/sabrage-core/src/executor.rs:815-839 | A temp has the final mode all along, except that write_atomic's may still have 0600. |
| ExclusiveCreate.ExclusiveCreation | sabrage/crates/sabrage-core/src/executor.rs:907-947 | Without I/O errors, exactly one of the concurrent callers is told it created the file if it was absent and none if it existed, the name shows the winner's bytes or the untouched old file, and no temp is left. |
| ExclusiveCreate.NeverTwoCreators | sabrage/crates/sabrage-core/src/executor.rs:895-947 | Whatever fails, no two callers are told they created the file, and none if it existed. |
| ExclusiveCreate.NoTempSurvives | sabrage/crates/sabrage-core/src/executor.rs:931-938 | Unless removing one fails, a caller that is done has no temp, whatever else went wrong. |
| Executor.Directory.WriteAtomicReal | sabrage/crates/sabrage-core/src/executor.rs:818-877 | For every outcome of every system call: Ok if and only if open, all writes, chmod, fsync and rename succeed and the directory sync does not fail; if and only if all up to the rename succeed the path shows the bytes under the old mode (0644 if fresh), and nothing else ever changes; if the directory sync succeeds, the file is all that a power loss can bring back. It is a run of the modelled caller. |
| Executor.Directory.CreateNewReal | sabrage/crates/sabrage-core/src/executor.rs:907-947 | Ok(true) if and only if every call succeeds on an absent name, Ok(false) if and only if the temp is complete and the name taken; the files change if and only if the link was made; no temp is left unless removing it fails. |
| Executor.Directory.CopyAtomic | sabrage/crates/sabrage-core/src/executor.rs:781-803 | Ok if and only if open, all writes, chmod and rename succeed, and then, and only then, the path shows the source's bytes and mode. |
| Executor.WritesFailWhen | sabrage/crates/sabrage-core/src/executor.rs:831-833 | Writing everything out fails if and only if some write fails before the writes ahead of it have taken everything. |
| DryRun.RealExecutor.CopyIfChanged | sabrage/crates/sabrage-core/src/executor.rs:429-458 | Bytes and mode of the destination after each branch, and the files untouched on every error and after a cancellation. |
| DryRun.RealExecutor.CreateNew | sabrage/crates/sabrage-core/src/executor.rs:467-472 | Creates or reports the existing file, refuses when cancelled, and may report an error although the file is there. |
| OnePublication.CopyIsOneUpdate | sabrage/crates/sabrage-core/src/executor.rs:781-803 | A copy with the directory to itself, whatever fails in it, ends with the source's bytes and mode under its path or with no file changed. |
| OnePublication.CreationIsOneUpdate | sabrage/crates/sabrage-core/src/executor.rs:907-947 | An exclusive creation ends with the file created, found there, or not created, or with an error although it has been created. |
| OnePublication.FailedYetCreated | sabrage/crates/sabrage-core/src/executor.rs:907-947 | A whole exclusive creation ends in an error with its file standing where there was none if and only if it got as far as the directory sync and that failed. |
| OnePublication.CreatesAndFails | sabrage/crates/sabrage-core/src/executor.rs:931-947 | Wherever the file is absent there is such a run. |
| DryRun.CopyIsPublication | sabrage/crates/sabrage-core/src/executor.rs:454-456 | The copying branch does to the files what the run of copy_atomic's system calls does, with the same verdict. |
| DryRun.CreationIsPublication | sabrage/crates/sabrage-core/src/executor.rs:467-472 | Likewise for the exclusive creation, with one of three fates. |
| DryRun.DryRunExecutor.CopyIfChanged | sabrage/crates/sabrage-core/src/executor.rs:1011-1050 | Answers from a real comparison and appends one action with the reason. |
| DryRun.DryRunExecutor.CreateNew | sabrage/crates/sabrage-core/src/executor.rs:1064-1080 | Answers from a real existence probe and appends one action. |
| DryRun.DryRefinesReal | sabrage/crates/sabrage-core/src/executor.rs:1011-1080 | Where the real call succeeds the dry one answers the same, names the target, and skips if and only if the real one changes nothing. |
| DryRun.RealSucceedsWhen | sabrage/crates/sabrage-core/src/executor.rs:429-472 | Exactly when the real calls succeed, and that an error leaves the files as they were, except for a created file whose directory could not be synced. |
| DryRun.PlanSaysWhat | sabrage/crates/sabrage-core/src/executor.rs:1011-1080 | The one recorded action names source and target, and its reason tells what the real call makes of the target: absent, different bytes, already equal, both modes as octal digits that read back, or the number of bytes written. |
| DryRun.SecondCopyIsUnchanged | sabrage/crates/sabrage-core/src/executor.rs:429-458 | After a copy the destination equals the source in bytes and mode, and a second copy answers Unchanged. |
| DryRun.DryScriptForetells | sabrage/crates/sabrage-core/src/executor.rs:949-1080 | A dry run of a whole script foretells every verdict of the real run when no call looks at what an earlier one writes. |
| DryRun.CreationForetold | sabrage/crates/sabrage-core/src/executor.rs:1064-1080 | In any script, a creation's verdict is foretold if and only if the file is there already or no earlier call has it for its target. |
| DryRun.DependentScriptDiffers | sabrage/crates/sabrage-core/src/executor.rs:1064-1080 | Two creations of one path, where that condition fails, get different verdicts. |
| Quoting.ApplescriptEscape | sabrage/crates/sabrage-core/src/privilege.rs:202-215 | The character loop writes the escape of each character in order. |
| Quoting.ShellQuote | sabrage/crates/sabrage-core/src/privilege.rs:222-234 | The character loop writes the quoted form that the shell reads back as the string. |
| Quoting.LiteralRoundTrip | sabrage/crates/sabrage-core/src/privilege.rs:192-215 | For every string the AppleScript literal ends at the intended quote and has the string as its value. |
| Quoting.QuotedIsRead | sabrage/crates/sabrage-core/src/privilege.rs:217-234 | For every NUL-free string the shell reads the quoted form as that one word. |
| Quoting.EscapedIsOneLine | sabrage/crates/sabrage-core/src/privilege.rs:196-215 | The escaped literal holds no line break and no tab, whatever the string holds. |
| Quoting.QuotedAsItStands | sabrage/crates/sabrage-core/src/privilege.rs:217-234 | A string without a single quote is written between quotes as it stands. |
| Quoting.TwoLayersRoundTrip | sabrage/crates/sabrage-core/src/privilege.rs:236-298 | osascript gets `-e` and one script; lexed as AppleScript and then tokenised by the shell, it yields exactly the mkdir and install argument vectors that the sudo method runs behind `sudo`, programs and flags spelled out. |
| ZshEncode.ScalarReadBack | sabrage/crates/sabrage-contract-gen/src/lib.rs:220-233 | For every string zsh reads the encoded scalar as one word, the string, without expansion. |
| ZshEncode.WordReadBack | sabrage/crates/sabrage-contract-gen/src/lib.rs:235-253 | For every string zsh reads the encoded word as one word, the string. |
| ZshEncode.HeadIsSafe | sabrage/crates/sabrage-contract-gen/src/lib.rs:235-253 | An encoded word is never empty and never begins with a character that zsh expands at the head of a word. |
| ZshEncode.EncodingIsMinimal | sabrage/crates/sabrage-contract-gen/src/lib.rs:208-253 | A scalar keeps its double quotes if and only if it is literal inside them, a word stays bare if and only if it has only harmless characters and a harmless head, and everything else is single-quoted. |
| ZshEncode.ArrayReadBack | sabrage/crates/sabrage-contract-gen/src/lib.rs:149-155 | The text between the parentheses reads back as the list, same count and same elements, empty strings included. |
| ZshEncode.ContractReadsBack | sabrage/crates/sabrage-contract-gen/src/lib.rs:141-206 | Sourcing the generated file binds the thirteen names to exactly the contract's values, in order, and does nothing else. |
| Supervise.CancellationKillsTheTree | sabrage/crates/sabrage-core/src/process.rs:405-465 | Once the select has taken the cancellation, a call that is over leaves no signalable member of the group alive; it has returned Cancelled if and only if its first drain did not time out on the second pump, and has panicked otherwise. |
| Supervise.StuckOnASurvivor | sabrage/crates/sabrage-core/src/process.rs:436-456 | A cancelled first drain that times out on a pump finds its pipe held, if at all, by a process outside the group or one that cannot be signalled, and sends one more SIGKILL. |
| Supervise.CancelledCallPanics | sabrage/crates/sabrage-core/src/process.rs:442-449 | A run in which a daemon keeps stderr but not stdout, and the second drain awaits a finished handle. |
| Supervise.CancellationIsPrompt | sabrage/crates/sabrage-core/src/process.rs:411-456 | It is over within the grace period plus one poll interval plus two drain graces. |
| Supervise.ExitWaitsForOutput | sabrage/crates/sabrage-core/src/process.rs:405-456 | In every run, counted from the moment the child's exit is taken: the call returns Exited, whatever is cancelled later, only when both pumps have been awaited to their end or 2000 ms have passed, and it is over by then. |
| Supervise.CancelWaitsForOutput | sabrage/crates/sabrage-core/src/process.rs:434-456 | Counted from the moment a cancelled call stops watching the group: it returns only when both pumps have been awaited to their end or two drains have passed, and panics only after one. |
| Supervise.CancelledRunWaits | sabrage/crates/sabrage-core/src/process.rs:411-456 | The same of every run, counted from the cancellation. |
| Supervise.SignalDiscipline | sabrage/crates/sabrage-core/src/process.rs:405-456 | No signal on the uncancelled path; SIGTERM at the cancellation; SIGKILL only after the grace or a timed-out drain. |
| Supervise.WaitsForTheChild | sabrage/crates/sabrage-core/src/process.rs:411-424 | In every run: a cancelled call waits while the child lives and the grace lasts; an exited child is reaped and the group looked at at once; when the grace is over SIGKILL goes out and the child, which dies of it, is reaped. |
| Supervise.WatchesTheGroup | sabrage/crates/sabrage-core/src/process.rs:425-434 | In every run: a cancelled call drains as soon as it finds the group empty and sends nothing more; while the grace lasts it looks again after exactly 25 ms; after it, it sends SIGKILL. |
| Supervise.EndedOutputIsTaken | sabrage/crates/sabrage-core/src/process.rs:442-456 | Output that has ended is not waited for: both ends are taken and the call returns in the same instant. |
| Supervise.CancellationMayLose | sabrage/crates/sabrage-core/src/process.rs:405-411 | A run in which the child has exited and the token has fired, and the select may take either. |
| Supervise.NeverStuck | sabrage/crates/sabrage-core/src/process.rs:405-456 | Past the select there is always a move to make or a timer to come. |
| PromiseChain.SettingsStore.Enqueue | sabrage/ui/src/stores/settings.svelte.ts:30-38 | The counter moves at once, the step is hung onto the promise that `chain` names, and `chain` moves on to a promise behind the call's own. |
| PromiseChain.SettingsStore.Begin | sabrage/ui/src/stores/settings.svelte.ts:72-106 | The step is refused if and only if it is an update and nothing is shown; otherwise the value saved, or the patch of what is shown, is shown at once and awaits the backend. |
| PromiseChain.SettingsStore.SaveResolved | sabrage/ui/src/stores/settings.svelte.ts:75-77 | A save that went through leaves settings equal to what is on disk, and its caller's promise is fulfilled. |
| PromiseChain.SettingsStore.SaveRejected | sabrage/ui/src/stores/settings.svelte.ts:78-82 | A failed save goes on to reload; the error it set is gone. |
| PromiseChain.SettingsStore.Reloaded | sabrage/ui/src/stores/settings.svelte.ts:45-58 | The reload takes the disk's value or quarantines the store, and the call's promise is rejected. |
| PromiseChain.SettingsStore.Swallow | sabrage/ui/src/stores/settings.svelte.ts:33-36 | The promise behind a call's own is fulfilled however the call ended. |
| PromiseChain.EarlierAreDone | sabrage/ui/src/stores/settings.svelte.ts:24-38 | A step runs only when every call before it has settled, either way; this is what `then(fn, fn)` and the swallowed rejection give. |
| PromiseChain.OneAtATime | sabrage/ui/src/stores/settings.svelte.ts:24-38 | For every interleaving of calls, replies and reactions at most one save is under way, calls start in call order behind failures too, and each caller's promise tells what became of its own call. |
| PromiseChain.NeverWedged | sabrage/ui/src/stores/settings.svelte.ts:30-38 | While a call waits and none is under way, a reaction is due, whether or not the calls before it failed. |
| PromiseChain.EveryCallIsAttempted | sabrage/ui/src/stores/settings.svelte.ts:68-106 | In every run, when a call's turn comes, it is refused if and only if it is an update and nothing is shown, and then changes nothing; any other call, a save into a quarantined store among them, awaits the backend with its value. |
| PromiseChain.AcceptedCallIsSaved | sabrage/ui/src/stores/settings.svelte.ts:40-44 | Whatever happens between a call's start and the backend's acceptance: its value is then on disk and shown, the store is armed, no error is shown, and its promise is fulfilled. |
| PromiseChain.StepRefines | sabrage/ui/src/stores/settings.svelte.ts:30-106 | Every event of the chain of promises is an event of a queue with one call under way, or none. |
| SettingsQueue.StepKeeps | sabrage/ui/src/stores/settings.svelte.ts:60-106 | Every event of that queue keeps the disk the fold, in call order, of the settled writes that reached it. |
| PromiseChain.QueueIsSequential | sabrage/ui/src/stores/settings.svelte.ts:24-38 | For every interleaving, when no call is under way the disk is the fold, in call order, of the writes that reached it, and settings equal the disk after a successful load or save and are empty otherwise. |
| SettingsQueue.ErrorAfterRejection | sabrage/ui/src/stores/settings.svelte.ts:60-83 | After a rejected save the error is shown if and only if the reload fails too. |
| QuitDialog.QuitGate.Requested | sabrage/src-tauri/src/lib.rs:113-128 | A request is prevented if and only if a session is live, no approval stands, and no dialog has been open for 20 s; the clock starts with the first request prevented and is otherwise left alone. |
| QuitDialog.QuitGate.Mark | sabrage/src-tauri/src/commands.rs:978-985 | The first instant is kept. |
| QuitDialog.QuitGate.Answer | sabrage/src-tauri/src/commands.rs:1001-1015 | Any answer stops the clock; Cancel takes an approval back. |
| QuitDialog.QuitGate.Approve | sabrage/src-tauri/src/commands.rs:1016-1035 | Carrying out a Stop or a Keep approves the quit and leaves the clock alone. |
| QuitDialog.NeverAbandonsASession | sabrage/src-tauri/src/commands.rs:772-787 | In every run a process that ends with a live session has detached it, except if and only if a Stop or Keep had been carried out and Cancel was not said since; only what the user said is carried out; a request is given up on only after a dialog was open, unanswered, for 20 s. |
| QuitDialog.CancelIsTheLastWord | sabrage/src-tauri/src/commands.rs:1009-1036 | After Cancel the session cannot be abandoned without another Stop or Keep if and only if no earlier one is still being carried out. |
| QuitDialog.StopOutlivesCancel | sabrage/src-tauri/src/commands.rs:1009-1036 | The run in which it can: Cancel during the teardown of an earlier Stop. |
| QuitDialog.AnswerIsCarriedOut | sabrage/src-tauri/src/commands.rs:1012-1036 | Whatever happens while a Stop or a Keep is being carried out: when that is over the quit is approved, and the exit it asks for ends the process without detaching. |
| QuitDialog.QuitsAfterTimeout | sabrage/src-tauri/src/commands.rs:917-990 | Once 20 s have passed since an unanswered dialog opened, however often it was re-requested, the next request ends the process. |
| QuitDialog.AsksUntilTimeout | sabrage/src-tauri/src/commands.rs:914-959 | At any point of any run a request, or the exit an answer asked for, ends the process if and only if no session is live, or a Stop or Keep has been carried out and Cancel not said since, or a dialog has been open, unanswered, for 20 s; otherwise the dialog is shown. |
| QuitDialog.TerminateDetaches | sabrage/src-tauri/src/commands.rs:772-787 | AppKit's terminate: always ends the process, and detaches a live session if and only if no approval stands. |
| LogicalPath.LogicalAbsolute | sabrage/crates/sabrage-core/src/paths.rs:181-217 | The loop computes the normal form of the path, resolved against the working directory if there is one. |
| LogicalPath.ResultIsNormal | sabrage/crates/sabrage-core/src/paths.rs:195-217 | An absolute result is a root and names; a relative one has `..` only as a leading run, or is `.`. |
| LogicalPath.Idempotent | sabrage/crates/sabrage-core/src/paths.rs:181-217 | Normalising twice is normalising once. |
| LogicalPath.JoinAfterNormalising | sabrage/crates/sabrage-core/src/paths.rs:184-211 | For absolute a and relative b, normalising a first makes no difference to a/b. |
| LogicalPath.MeaningPreserved | sabrage/crates/sabrage-core/src/paths.rs:195-211 | From any directory the path and its normal form lead to the same place in a tree without symbolic links. |
| LogicalPath.LeadsFromCwd | sabrage/crates/sabrage-core/src/paths.rs:184-217 | A relative path is followed from the working directory if there is one, any other as it stands; the result is absolute, a root and names, unless the path is relative and no absolute working directory is known. |
| LogicalPath.NormalFormDecides | sabrage/crates/sabrage-core/src/paths.rs:195-211 | Two absolute paths lead to the same directory if and only if they normalise to the same path. |

## Left out

- TailClaims.ConsumerTheorem: polls that end in an I/O error other than a missing file are excluded, since the one caller stops tailing at the first of them; `Tailer.Poll` itself models those errors.
- TailClaims.AnnouncedExactlyOnce: assumes that the file a poll finds is not rewritten while that poll lasts, no straddled read, and no switch while an announcement is due; without the last two the code fails (see above), and `TailClaims.DueAnnouncedOnce` needs none of the three for the repaired line.
- Tailing.OpensWhileGrowing: a log that is rewritten, not appended to, while it is being opened is modelled by `Tailer.Open` but nothing further is claimed of it.
- TailLimits.StraddleUndone: the rewrite inside the read window is any change at all; only a change that the second witness check sees is called straddled.
- Supervise.CancellationKillsTheTree: the supervisor is a machine over values rather than imperative code, since its point is the interleaving with the tree; a cancellation that arrives after the select has taken the child's exit is ignored, as in the code; members that leave the group or change to another user may survive. That awaiting a finished handle again panics is tokio's behaviour, taken as given.
- QuitDialog.NeverAbandonsASession: a window close that is let through is one exit request; how long the teardown of Stop may take is left open.
- PromiseChain.QueueIsSequential: no other process writes the file and no screen calls `load` directly.
- ZshEncode.ContractReadsBack: the wording of comment lines and the hash in the header are parameters; the reader takes the number of lines as a bound on its recursion, which is shown to suffice.
- Executor.Directory.WriteAtomicReal: the temp's name, a fresh UUID, is not the path (nor, in `Publish`, any path or any other temp), and the directory's entries name inodes; a temp name that is taken after all is modelled, as an error.
- Quoting.TwoLayersRoundTrip: paths are strings without NUL, and the destination's parent is a parameter, since both methods use the same one.
- LogicalPath.LogicalAbsolute: works on the components that the standard library yields; splitting a path's text, and finding the working directory, are not modelled.
- DryRun.RealExecutor.CopyIfChanged: one flag says whether the writes succeed, since `DryRun.CopyIsPublication` shows that every failure inside leaves the files as they were; `write_atomic` has no verdict to foretell and is left to `Publish`.
- DryRun.DryScriptForetells: for copies the condition is sufficient only; for creations `DryRun.CreationForetold` is exact.
- UTF-8 lossy decoding of lines: lines are byte sequences.
- Symbolic links, hard-link counts, directories other than the one published into, and renames between two names of the same inode.
- `sync_all` on a file that another process writes, and torn writes inside a synced file.
- The remaining executor primitives (directory removal, download, extraction, spawning), `TailRegistry` and `TailGuard`, the doctor's checks, stages, sessions and the command line: they would only add easy members.
