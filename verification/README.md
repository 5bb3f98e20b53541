# basicopy: verified models of the copy engine

Dafny models of five parts of basicopy and proofs about them:

- **The extent-dedup copy engine** (`internal/fsx`).  `Segments`, `ExtentIndex`, `DestRefs`, `CopyLoops` and `CopyData` hold the
  sequential code as classes and loops.  `DedupProtocol` is the same code as a transition system in which any number of workers
  share one index and one claim table while the source files move and change; `DedupSafety`, `DedupClaims`, `DedupTally` and
  `DedupHandles` prove what its runs keep, `DedupFinish` when a copy succeeds, and `DedupTable` that the table object takes its steps.  `CopyFiles` is the publication of a copy by a rename.
- **The run** (`internal/engine`, `internal/scan`).  `Gate` and `Queue`; `DirMeta`, `DirMetaRuns` and `DirStates` for directory
  metadata; `Scan`, `RunCopy`, `Runner`, `RunSafety`, `RunLoss`, `RunCounts`, `RunTurns` and `RunAgain` for what happens to the walked
  entries, hard links, moves, failures, dry runs and second runs, and `CleanRuns` for when a run can end cleanly; `Mirror` and `Moves` for the passes over the whole
  tree that follow a run, with `MirrorRun`, `MoveOrder`, `MoveLists` and `MoveRun`
  for what they are given and what they leave.
- **The walk**: `Walk`, `WalkPaths`, `WalkLinks` for what links can reach, `Prefetch` for the listing prefetcher, and `PosixPaths`
  and `PathMeaning` for `relPosix`, `withinRoot` and the path functions under them.
- **The SSH connection pool**: `Pool`.
- **The auto-scaling controller**: `Controller`.

An object that the program updates in place is a class.  Its methods are proved against functions on plain values, and the
properties of runs are proved about those functions: a concurrent part is a transition system, one step per mutex body, atomic
operation, system call or chunk, and a theorem speaks of every sequence of steps from the initial state.

`dafny verify dfyconfig.toml` verifies everything.

## What was found

- **Directory metadata can be queued early.**  A worker that drops a directory's count to zero and a walk that then adds more
  work and closes the directory race: the worker reads the closed flag afterwards and queues the directory while work below it
  is pending.  This contradicts the comment of `queueDirMeta` (`internal/engine/dirmeta.go:81`).
  `DirMetaRuns.InTimeExactlyWhenSafe` says for which work it can happen: exactly when a directory is given at least two pieces
  of work and the first is a copy.  Queueing exactly once, and all of it before the queue closes, holds in every run.
- **`relPosix` does not lead back over `..`.**  For relative paths the join of the base with the result is the target exactly when
  the base has no `..` after the parts both share (`PosixPaths.RelLeadsBack`).  Absolute paths have none.
- **`copyData` trusts the size of the walk's Lstat** on two of its ways.  Whichever way it takes, it agrees with the plain loop if and
  only if that size is the source's length when the copy starts (`CopyData.SizeMustBeRight`, with the way that fails otherwise); for
  the way taken, a reflink needs exactly that, `copy_file_range` a size no smaller, the others nothing
  (`CopyData.ServesExactlyWhen`, `CopyData.CopyFileData`).
- **The index can miss.**  `find` looks at 8 records, so a long record that covers a range can be overlooked
  (`ExtentIndex.FindCanMiss`): exactly when every usable record has 8 others nearer to the wanted address
  (`ExtentIndex.FindMissesExactlyWhen`).  A record with the asked key is never overlooked (`ExtentIndex.FindSeesItsOwnKey`).
- **A hard link whose destination is its own source entry** (through a symlinked directory) can lose both when the link fails
  after its old entry was removed.  `RunLoss.LostExactlyWhen` says for which trees and options some run ends so: exactly when the
  entry is a later name of its inode, the first name can get a file that is not its own source, and every other name can lose its
  source, being moved or aliased itself.  The content is then at another name's destination (`RunLoss.NothingIsLost`).
- **Two sources of one base name under `--mirror`** leave only what both have: `Mirror.SharedDestinationIntersects`.
- **The connection pool does less than `docs/ssh.md` says** (lines 54-57).  *A busy connection with nothing outstanding is taken:*
  the code never looks at the requests outstanding before it dials; a transfer gets a busy connection exactly when none is free and
  the pool cannot grow (`Pool.BusyIsGivenExactlyWhenStuck`).  *The first of several connections is kept clear of transfers:* a new
  transfer goes there exactly when connections are shared, so never while the pool can grow (`Pool.FirstIsGivenExactlyWhenShared`),
  but a transfer that took it while it was the only one keeps it after the pool has grown (`Pool.FirstCarriesBesideOthers`); the two
  are all the cases there are (`Pool.FirstCarriesExactlyWhen`).  The model follows `internal/vfs/pool.go:76-112`.

## Assumptions

- Bytes of a source device at recorded addresses do not change during the run.  A file's extents may move, and be shared or unshared
  at any time; a byte that left an address, or whose extent got a flag under which the address does not show the byte as it is, does
  not return to it.  Every change of content raises the file's mtime.  Inode numbers are not reused during the run.
- A published destination may be replaced, not edited in place.  A rename is atomic, a failed clone changes nothing, a `ReadAt`
  without error fills its buffer, one chunk is read and written in one step, and one FIEMAP answer is of one moment.
- `find` reads the `dead` flags of the references it looks at in the step of the mutex body that calls it.
- Equal digests mean equal contents.
- `CopyFiles` takes the temp file's name and inode as given by the system, any new ones.
- In `RunCopy` each entry of the walk has a source path and a destination path of its own, and the source files are stable.  The
  result about contents also assumes what the quick check relies on: equal size and mtime mean equal content (`Honest`; with
  `--checksum` nothing is assumed).
- A destination entry can be a source entry itself (`alias`) only where both sides are local and tell inodes, as `sameEntry` needs:
  a remote host whose destination tree is the source tree under another name is not in the model, and there a moved source that is
  its own destination would be removed.
- A file is not renamed over a directory.

## Model

| member | source | states |
|---|---|---|
| Segments.PlanSegments | internal/fsx/extents_linux.go:91-109 | the plan tiles [0,size) with ordered segments of positive length for any extent list; a shared segment is a piece of a shareable extent; for sorted disjoint extents every in-range byte of a shareable extent is planned as shared and each shared segment is mapped |
| Segments.PlanMatchesMap | internal/fsx/extents_linux.go:91-109 | for sorted disjoint extents a byte is planned at an address exactly when an extent backs it there |
| Segments.Mapped | internal/fsx/extents_linux.go:263-270 | a mapped segment is backed byte for byte by the addresses it names |
| Segments.MappedExactly | internal/fsx/extents_linux.go:263-270 | inside one extent a segment is mapped exactly when the extent is shareable and the address agrees |
| ExtentIndex.Find | internal/fsx/extents.go:144-163 | an answer is a live record that covers the wanted range, the nearest below it; no answer means none among the records looked at |
| ExtentIndex.FindSeesItsOwnKey | internal/fsx/extents.go:144-163 | with no dead files a record that starts at the wanted address and is long enough is always found |
| ExtentIndex.FindMissesExactlyWhen | internal/fsx/extents.go:144-163 | nothing is found if and only if every usable record at or before the wanted address has eight others nearer to it |
| ExtentIndex.FindCanMiss | internal/fsx/extents.go:140-163 | so a covering record behind eight short ones is not found |
| ExtentIndex.ReplaceOrInsert | internal/fsx/extents.go:208-215 | the index stays sorted and holds the new record and every other record with another key |
| ExtentIndex.WithoutKeepsOrder | internal/fsx/extents.go:187-200 | ending a claim keeps the others un-nested |
| ExtentIndex.AcquireAnswer | internal/fsx/extents.go:168-184 | a hit is a usable record of the device; busy is a claim in flight that contains the range; a new claim is made only if no record is found and no claim contains the range |
| ExtentIndex.Dedup.Acquire | internal/fsx/extents.go:168-184 | the method gives that answer, appends exactly a new claim to the claim list, and keeps the table valid |
| ExtentIndex.Dedup.FindRecord | internal/fsx/extents.go:144-163 | a scan down to the last record at or before the address, and on from there, computes Find, with the offset delta |
| ExtentIndex.Dedup.Release | internal/fsx/extents.go:187-200 | the record goes in and the claim goes out in one step, and the claim's channel is closed |
| ExtentIndex.Dedup.CloneProbe | internal/fsx/extents.go:237-246 | a device is probed for its first caller only, and every later caller gets the same answer: each device has been probed once if its answer is known, and not at all otherwise |
| DestRefs.CloneSource | internal/fsx/extents.go:51-72 | a clone reads the inode the reference was made for, and nothing once it is dead |
| DestRefs.DestRef.With | internal/fsx/extents.go:51-72 | the method runs its function on exactly that inode |
| DestRefs.DestRef.Commit | internal/fsx/extents.go:97-105 | the path is set before the handle is closed, in one step, so a handle or a path leads to the file at every moment |
| DestRefs.DestRef.Kill | internal/fsx/extents.go:108-117 | after kill no clone can use the file, whatever the paths name |
| DestRefs.FileDedup.Kill | internal/fsx/extents.go:108-117 | kill forgets the file and its records and leaves a file without dedup alone |
| DedupSafety.LiveRecordsAreTrue | internal/fsx/extents_linux.go:117-229 | in every interleaving, a live record's range of its destination file equals the device range it names |
| DedupSafety.VerifiedCopyEqualsSource | internal/fsx/extents_linux.go:117-178 | in every interleaving, a copyDedup that returns no error leaves the destination equal to the source at the first fstat, with extents moving meanwhile |
| DedupSafety.FinalStatSeesTheSnapshot | internal/fsx/extents_linux.go:242-260 | a worker that goes on from the last fstat has a source with the same content and size as at the first |
| DedupSafety.ClonesReadLiveBytes | internal/fsx/extents_linux.go:183-194 | a clone that can succeed is within one device and reads the record's own inode, whose bytes were not discarded, and with find's delta gets the device's bytes of the wanted segment |
| DedupSafety.LiveRefsReach | internal/fsx/extents.go:40-124 | a live reference always has an open handle or a path, and no file whose bytes were discarded has one |
| DedupSafety.PublishedPathShows | internal/fsx/copy.go:112-118 | from its publication on, whoever opens the path reads what the source was at the first fstat |
| DedupSafety.CommittedServesExactlyWhile | internal/fsx/extents.go:51-105 | from its commit on a file serves clones if and only if the path it was published under still names it |
| DedupFinish.TakesPartExactlyWhen | internal/fsx/extents_linux.go:117-145 | a worker enters the segment loop, and its file becomes a clone source, if and only if some byte of the file lies in a shareable extent; otherwise nothing is written |
| DedupFinish.AnswersExactlyWhen | internal/fsx/extents.go:144-184 | in every run the worker on a shared segment gets a live record that holds all of it, or each such record has eight others before the address and it waits for a claim that holds the segment or makes one that no claim contains |
| DedupFinish.ClonesExactlyWhen | internal/fsx/extents_linux.go:183-194 | a clone about to be made can succeed if and only if the record's file is on the same device, not dead, reached by its handle or its path, and long enough |
| DedupFinish.StatPassesExactlyWhen | internal/fsx/extents_linux.go:242-252 | at the last fstat of any run the worker goes on if and only if length and mtime are those of the first, to the map check if and only if it has cloned, and else to the verified end |
| DedupFinish.MapPassesExactlyWhen | internal/fsx/extents_linux.go:252-270 | at the map check of any run, for sorted disjoint extents, the worker is verified if and only if each cloned segment lies in one shareable extent of the map of that moment, at the segment's address |
| DedupFinish.UndisturbedIsOnTrack | internal/fsx/extents_linux.go:117-178 | a worker whose source nobody touches, begun at the right size and map and with no cancel or failed copy of its own, never fails, whatever the others do: its last checks pass |
| DedupFinish.EachStepAdvances | internal/fsx/extents_linux.go:117-216 | and each of its own steps, but into and out of a wait, brings it nearer to a verified copy |
| DedupFinish.FinishesAlone | internal/fsx/extents_linux.go:117-216 | so from every moment of its copy it reaches a verified copy by its own steps as long as nobody else holds a claim |
| DedupHandles.OpenExactlyWhile | internal/fsx/extents.go:40-124 | in every run a clone source's handle is open if and only if its copy is between its plan and its commit or kill, so no handle leaks |
| DedupClaims.ClaimsAreOrderly | internal/fsx/extents.go:168-200 | in every interleaving no claim in flight is contained in an earlier one, each has exactly one holder, and every claim made is in flight or closed, never both |
| DedupClaims.ClaimsEndOnce | internal/fsx/extents.go:187-200 | a claim that ends was in flight and not yet closed |
| DedupClaims.WaitersAreServed | internal/fsx/extents_linux.go:183-216 | a worker waits only while it holds no claim, and either its wait is over or the holder it waits for can take a step |
| DedupClaims.HoldersFinish | internal/fsx/extents_linux.go:183-216 | each step of a claim's holder brings the end of the claim nearer, and no step of another worker moves it away |
| DedupTable.Acquire | internal/fsx/extents.go:168-184 | in every state of every run, asking the table object for a segment gives the protocol's answer and takes its step |
| DedupTable.Record | internal/fsx/extents_linux.go:183-216 | ending a copy that worked, under a claim or not, takes the protocol's step on the object; the claim is in flight there |
| DedupTable.GiveBack | internal/fsx/extents_linux.go:204-207 | and so does giving a claim back |
| DedupTable.OthersLeaveTable | internal/fsx/extents_linux.go:117-229 | every other step of the protocol leaves the table as it is |
| DedupTally.TallyIsFinished | internal/fsx/extents_linux.go:183-216 | transfers plus clones of an extent are the finished segments that wanted it, in every run |
| DedupTally.TransferredOnce | internal/fsx/extents_linux.go:183-216 | with no kills and working clones and rechecks, an extent wanted by n workers is transferred once and cloned n-1 times, unless a longer record covers it |
| ByteFiles.WroteNonZeroIsWrite | internal/fsx/copy_linux.go:160-181 | where the destination reads as zero, skipping zero blocks and writing the whole buffer give the same bytes, up to the file's end |
| CopyLoops.WriteNonZero | internal/fsx/copy_linux.go:160-181 | the buffer's bytes outside all-zero blocks are written, all else is unchanged, and the offsets written are exactly those outside all-zero blocks |
| CopyLoops.CopyRange | internal/fsx/extents_linux.go:307-340 | over a range that reads as zero the destination equals the source on the range and is unchanged elsewhere; every offset written has a non-zero source byte less than a block away, so holes stay; progress is credited with the length; it fails only if a call did, the caller cancels or the source ends early |
| CopyLoops.CopySparse | internal/fsx/copy_linux.go:120-157 | for any sizes of the reads the destination is the source, byte for byte and in length, and every offset written has a non-zero source byte less than a block away; it fails only if a call did or the caller cancels |
| CopyLoops.CopyFileRange | internal/fsx/copy_linux.go:79-109 | copies up to the given size and stops at the end of the source; a fallback happens only with nothing written and both offsets at zero |
| CopyLoops.PlainCopy | internal/fsx/copy.go:187-224 | the destination is the source and the count is its length, whatever the sizes of reads and writes |
| CopyData.CopyShared | internal/fsx/extents_linux.go:183-216 | a segment that is cloned ends up with the device's bytes, one that is copied with the source's, and succeed or fail nothing outside it changes |
| CopyData.CopyDedup | internal/fsx/extents_linux.go:117-178 | it applies, where clones work and for sorted disjoint extents, if and only if a byte of the file lies in a shareable extent; not applying leaves the destination empty and no clone source; success means the destination is the source, zero blocks outside shareable extents stay holes, and progress is paid for every byte; it fails only if a call did, the caller cancels or the source changed; however it ends, no byte is lost that a clone could read |
| CopyData.CopyFileData | internal/fsx/copy_linux.go:25-61 | which of reflink, dedup, sparse, copy_file_range and plain loop is taken, in that order and each only if those before do not apply; a success leaves what CopyAnswer says of the way taken, after a restart too, and agrees with the plain loop exactly when the size from the walk serves that way; a sparse way keeps the holes; progress equals the count when nothing was thrown away; it fails only if a call did, the caller cancels or the source changed; no byte is lost while a clone could read it, so the restart ends the clone source before it empties the file |
| CopyData.CopyBytes | internal/fsx/copy_linux.go:44-61 | after reflink and dedup, a file with fewer 512-byte blocks than its size implies is copied around its holes, if and only if; any other by copy_file_range, and by the plain loop only where that is refused |
| CopyData.ServesExactlyWhen | internal/fsx/copy_linux.go:25-61 | the answer of a way is the plain loop's if and only if the size from the walk serves that way |
| CopyData.SizeMustBeRight | internal/fsx/copy_linux.go:25-61 | every way that can be taken answers like the plain loop if and only if there is no size from the walk or it is the source's length, with a way and its wrong count otherwise |
| CopyFiles.CopyFile | internal/fsx/copy.go:50-123 | at every moment a reader of the destination finds the old file or all of the new one, and no byte that a clone could read has been lost or removed; it fails only if the caller canceled or a call failed, and never succeeds after a cancel or a failed open, sync or close; a failed copy leaves every path as it was, but perhaps its temp name where that could not be removed, and its clone source dead; a published one has what the way taken answers, which is the source if and only if the size from the walk served that way, no temp name, and a clone source that leads to it through the path |
| CopyFiles.Publish | internal/fsx/copy.go:114-118 | between the rename and the commit clones read through the handle, and after it through the path |
| CopyFiles.Discard | internal/fsx/copy.go:72-78 | at no moment has the temp file gone while its clone source was live, and afterwards the source is dead |
| CopyFiles.Settle | internal/fsx/copy.go:66-123 | a copy is published only if all went well, and discarded otherwise |
| CopyFiles.CopyContents | internal/fsx/copy.go:159-166 | the temp file gets what copyData answers, nothing else changes, and no byte is lost that a clone could read |
| Controller.TickKeeps | internal/control/control.go:111-210 | a tick keeps min <= W <= max, the phase's facts and the tunables |
| Controller.TickChanges | internal/control/control.go:111-210 | W changes only when the dwell is over, and then a full dwell starts; what each change can be |
| Controller.FreshIsOk | internal/control/control.go:61-84 | New clamps any arguments into a consistent controller |
| Controller.Controller.Update | internal/control/control.go:111-210 | the method, with its early returns, computes one tick |
| Controller.ClimbTick | internal/control/control.go:133-152 | climbing with the dwell over and not blocked: if the smoothed throughput beats the reference by more than 6 % and no guard is up and W < max, then W becomes min(max, max(W + 1, W + W/2)) with the old W kept and a full dwell; under a guard or at max W is held; without the gain W goes back to the one before |
| Controller.BlockedTick | internal/control/control.go:124-131 | a blocked tick after the dwell grows W by the same numbers, or changes nothing under a guard or at max |
| Controller.ProbeTick | internal/control/control.go:154-184 | the eighth holding tick probes up or down by turns, each direction falling back to the other at a limit |
| Controller.TrimTick | internal/control/control.go:186-198 | a trim is kept within 6 % of the peak and undone below |
| Controller.ScalingReachesMax | internal/control/control.go:111-152 | under a load whose smoothed throughput keeps growing past the margin, with the guards free, W is max within 3k ticks, k being its distance or, from two workers on, twice the doublings |
| Controller.DoublingScales | internal/control/control.go:111-152 | a throughput that doubles with each sample is such a load |
| Controller.AlwaysBounded | internal/control/control.go:111-210 | for every sample sequence W stays in [min,max] |
| Controller.DwellHolds | internal/control/control.go:111-210 | after a change W is constant while the dwell counts down |
| Controller.ChangesAreApart | internal/control/control.go:111-210 | two changes of W are more than DwellN ticks apart |
| Controller.RisesHaveCause | internal/control/control.go:89-210 | W rises only when canGrow holds or when a failed trim is undone |
| Controller.SettledRun | internal/control/control.go:111-210 | under constant throughput a measure of 24 for each step above min, plus the patience of the phase, falls with every tick until the base of all probes is min |
| Controller.ProbeReverts | internal/control/control.go:111-210 | under constant throughput a probe above the settled W is reverted when its dwell ends |
| Controller.ConvergesToMin | internal/control/control.go:111-210 | under constant non-negative throughput without blocked samples, from 24 (start - min) + 3 ticks on W is min, or a probe above it that will be reverted |
| Controller.ReachesMin | internal/control/control.go:111-210 | and within 24 (start - min) + 6 ticks W has been min |
| Gate.Gate.Enter | internal/engine/gate.go:31-38 | a worker enters only below the limit, else it sleeps |
| Gate.Gate.SetLimit | internal/engine/gate.go:63-74 | the limit is the number of [1,max] nearest to the setting, every sleeper is woken and no holder is touched |
| Gate.EntersExactlyWhen | internal/engine/gate.go:16-74 | in every run a pass lets its worker in if and only if fewer than the limit hold a slot, and only a new setting moves the limit, to the number of [1,max] nearest to it |
| Gate.NoLostWakeup | internal/engine/gate.go:31-74 | over any arrivals, releases and limit changes: if a worker sleeps un-woken, holders plus woken workers are at least the limit; holders never exceed max |
| Gate.LowerLimitDrains | internal/engine/gate.go:31-74 | under a lowered limit nobody enters until enough have left |
| Queue.Queue.TryPop | internal/engine/queue.go:38-52 | the first item, or the end, or another wait |
| Queue.FifoWithoutLostWakeups | internal/engine/queue.go:21-52 | what was popped and what is queued are what was pushed, in order; an un-woken sleeper means an empty open queue |
| Queue.EndMeansDrained | internal/engine/queue.go:38-52 | a popper is told the end only when the queue is closed and every item was handed out |
| DirMeta.StepKeeps | internal/engine/dirmeta.go:56-87 | every step of walk, workers and link pass keeps: the count is the work queued, deferred or in hand; pushes and the swap agree; a closed directory with no work left is queued or someone still looks at it |
| DirMetaRuns.QueuedAtMostOnce | internal/engine/dirmeta.go:71-87 | in every interleaving a directory's metadata is queued at most once, and only after its listing is finished |
| DirMetaRuns.AllQueuedBeforeClose | internal/engine/engine.go:132-146 | when the metadata queue closes, every directory opened was queued exactly once and has no work left, in aborted and interrupted runs too |
| DirMetaRuns.NeverStuck | internal/engine/engine.go:114-146 | until the queue is closed some step is possible without the walk finding more |
| DirMetaRuns.RunsAreBounded | internal/engine/engine.go:299-315 | the steps of a run are bounded by what the walk found, so with NeverStuck every run ends |
| DirMetaRuns.InTimeExactlyWhenSafe | internal/engine/dirmeta.go:62-79 | a directory's metadata waits for all its work in every interleaving if and only if it was not given two or more pieces of work of which the first is a copy |
| DirStates.DirState.CompleteDirWork | internal/engine/dirmeta.go:62-69 | run without interruption it takes the machine's steps, and pushes when they do |
| DirStates.DirState.CloseDir | internal/engine/dirmeta.go:71-79 | the same for closing |
| Scan.SkippedExactlyWhen | internal/scan/scan.go:52-79 | with --checksum a readable file is skipped exactly when its content is there; without, exactly when size and, to a second, mtime agree |
| Scan.VerdictSays | internal/scan/scan.go:52-97 | which reason or drift flag is given for what the two files show: mode, owner where both tell it, and with --checksum an mtime more than a second away |
| Scan.SecondRunIsQuiet | internal/scan/scan.go:52-97 | a file with its source's content and attributes is up to date without drift |
| Scan.HashFile | internal/scan/scan.go:125-149 | the hasher gets every byte in order, or there is no digest |
| Runner.Runner.HandleRegular | internal/engine/hardlink.go:33-56 | the method takes the turn of RunCopy |
| Runner.Runner.HandleMultiLink | internal/engine/hardlink.go:77-97 | and so for a multiply-linked file; it appends to the deferred links exactly the entries it defers |
| Runner.Runner.CopyOne | internal/engine/engine.go:333-375 | a late skip undoes the discovery accounting, a full destination aborts the run with no attempt, a passing error of a run that goes on is tried again up to three times and nothing else is, and the answer of the last attempt decides |
| Runner.SettledIsRun | internal/engine/engine.go:333-375 | however a job ends, the state is one that RunCopy's steps reach |
| Runner.SettledOutcomes | internal/engine/engine.go:333-375 | what each end of a job leaves: the run is aborted exactly by lack of room, a cancel or a fatal failure; only a copy done publishes and counts; only a failure counts as one |
| Runner.Runner.FinishUnchangedFile | internal/engine/engine.go:389-405 | and so for an up-to-date file |
| Runner.Runner.RecreateSymlink | internal/engine/walk.go:312-337 | and so for a symlink kept as a link |
| Runner.Runner.EnqueueFile | internal/engine/walk.go:230-241 | and so for queueing, or counting in a dry run |
| Runner.Runner.ApplyHardlinks | internal/engine/hardlink.go:115-138 | the loop links every deferred entry, in order |
| Runner.Runner.RemoveSource | internal/engine/move.go:122-157 | a moved file or link is removed at its source, but for one that is its own destination |
| Moves.Removal.RemoveSource | internal/engine/move.go:122-141 | a source that is its own destination stays with a failure, an empty one goes, a directory that still has entries stays without a failure, any other fails |
| Moves.Removal.RemoveMovedSources | internal/engine/move.go:92-118 | files in any order, then directories from the bottom up: unless interrupted the pass leaves exactly the paths that were not moved, are their own destination or cannot be removed, and the directories above them; it counts what went, and a failure for each path that is its own destination or stays with nothing left below it; interrupted or not it takes nothing else |
| MoveOrder.DirsAreBottomUp | internal/engine/move.go:81-88 | the directories are recorded each after all that lie below it, and once, links to directories included |
| MoveOrder.DirsAreEntered | internal/engine/walk.go:168-205 | those recorded are those that the walk entered, but the ones to keep |
| MoveLists.FiledExactly | internal/engine/move.go:61-79 | recorded for removal are the paths copied as files or recreated as links, and no others |
| MoveLists.WalkRecords | internal/engine/move.go:61-118 | for every tree walked without following links, and the files in any order, the recorded lists are fit for the pass: files are leaves of the tree, each recorded once and no directory, and the directories come bottom up |
| MoveRun.RemoveMoved | internal/engine/move.go:61-118 | after a clean run over what a walk met, unless the pass is interrupted, a source path is left if and only if it, or something below it, was passed over by the walk, is a directory to keep, is its own destination or cannot be removed |
| RunSafety.ContentRemains | internal/engine/move.go:61-157 | at every moment of every run, with failures and aborts, each source file's content is at its own destination, or a source path of its inode is left, or, for a hard link whose destination is its source entry, at another name's destination |
| RunLoss.LostExactlyWhen | internal/engine/hardlink.go:77-138 | some run comes to a state where neither a file's own destination nor a source path of its inode has its content, if and only if the trees and options meet CanLose |
| RunLoss.CanLoseIsLost | internal/engine/hardlink.go:115-138 | for any trees and options that meet CanLose, a run that ends so |
| RunLoss.NothingIsLost | internal/engine/move.go:61-157 | so without CanLose every content is, at every moment, at its own destination or a source path of its inode; with it, another name's destination has it |
| RunSafety.NoLinkIsLost | internal/engine/walk.go:312-337 | a symlink is at its destination or still at its source |
| RunLoss.AliasedLinkCanLoseBoth | internal/engine/hardlink.go:115-138 | two names and one aliased entry are enough, whatever the content |
| RunSafety.HardlinksAreKept | internal/engine/hardlink.go:77-138 | after a run with no failure or abort, all visited destinations of one multiply-linked source inode name one destination inode, whether the primary was copied or adopted |
| RunCounts.CleanRunEnds | internal/engine/engine.go:107-146 | in every interleaving a clean run gives each entry the fate foretold from the two trees alone |
| RunCounts.DryRunTells | internal/engine/walk.go:230-241 | a clean dry run and a clean real run over unaliased trees, with --move or without, end with the same file, byte, dir, symlink, hardlink, skipped and updated counts, and the totals discovered equal files and bytes |
| RunCounts.TotalsAreCopied | internal/engine/engine.go:333-375 | at every moment of a clean run the totals discovered are the files and bytes counted plus those still queued, and equal the former once the jobs are done |
| RunTurns.FailuresAreCounted | internal/engine/engine.go:441-454 | in every run the failures reported are exactly the turns that failed: a directory not made, a link not replaced, a copy not published, a source not removed |
| RunTurns.FailureLeaves | internal/engine/hardlink.go:115-138 | a failure changes no file, no count and no other entry: the old destination is as it was, or gone where replacing it got so far |
| RunTurns.RemovesExactlyWhenComplete | internal/engine/engine.go:138-152 | in every run a source can be removed if and only if --move is on, the run is no dry run, the walk came to its end with no interruption or abort before the links were done, and its entry was copied, linked or found up to date |
| RunAgain.SecondRunIsQuiet | internal/engine/hardlink.go:33-138 | after a clean run that preserves attributes a second clean run skips every file and symlink, but links later names of an inode again where the destination tells no inodes |
| RunAgain.AfterIsUnaliased | internal/engine/hardlink.go:77-138 | a clean run that preserves attributes leaves trees that a second run can start from, with entries at one destination file only as names of one source inode |
| CleanRuns.EndsExactlyWhen | internal/engine/engine.go:107-146 | over unaliased trees some run ends without a failure if and only if it is a dry run or no file is to be copied to where a directory is |
| CleanRuns.ExactRunExists | internal/engine/engine.go:107-146 | and then one that also sets attributes exactly, whatever else the destination holds: outdated, drifted and up-to-date files, links, nothing |
| CleanRuns.TwoRunsExist | internal/engine/hardlink.go:33-138 | and so do a first run and a second after it as in SecondRunIsQuiet |
| Mirror.Pass.MirrorDir | internal/engine/mirror.go:21-59 | the pass deletes and counts exactly the topmost entries without a counterpart, with everything below them; a removal that fails is counted as a failure and may have removed a part of what is below its entry, and nothing else |
| Mirror.MirrorLeavesCounterparts | internal/engine/mirror.go:13-59 | after a pass without failures an entry is left exactly if the source has it |
| MirrorRun.CopiedTree | internal/engine/engine.go:107-146 | a clean real run leaves on the destination every entry of the walk beside what no entry named, and a clean dry run leaves the destination as it was |
| MirrorRun.MirrorBoth | internal/engine/engine.go:107-152 | the pass after a clean dry run counts what the pass after a clean real run deletes or fails to delete, with all other counts the same; it deletes no path that the source has, and unless a removal fails the destination has then just the source's paths: those of the walk, and of the others those it had before |
| Mirror.CopyingDoomsNothing | internal/engine/mirror.go:21-49 | copying changes nothing about what is extraneous |
| Mirror.SharedDestinationIntersects | internal/engine/mirror.go:15-19 | two sources mirrored onto one destination leave what both have |
| Walk.Walker.Visit | internal/engine/walk.go:137-166 | the walk ends on every finite tree with any symlink graph, restores onStack, and logs exactly the events of Full, or those before a halt |
| Walk.Walker.VisitDir | internal/engine/walk.go:168-205 | the same for a directory and its listing |
| Walk.Walker.VisitSymlink | internal/engine/walk.go:243-301 | the same for a link, whose events WalkLinks.LinkOutcome spells out, entering a directory on the stack never |
| WalkLinks.LinkOutcome | internal/engine/walk.go:243-301 | the outcome of each kind of link: kept as a link if links are not followed, or it dangles, or leads out of the root; a file inside is copied; a directory inside is entered unless it is being visited, and then reported as a loop |
| WalkLinks.DirOutcome | internal/engine/walk.go:137-205 | a directory is left alone as a mount point or entered, with its entries' events in order, or fails |
| WalkLinks.StaysInside | internal/engine/walk.go:243-301 | no event lies strictly below a link unless links are followed and the link leads to a directory inside the root |
| WalkPaths.FullMeets | internal/engine/walk.go:137-301 | each path is met exactly once, with the outcome of its end, if following it alone leads somewhere, and not at all otherwise |
| WalkPaths.NeverTwice | internal/engine/walk.go:279-293 | along a chain of followed links no canonical directory occurs twice, so chains are no longer than there are directories |
| Prefetch.StepKeeps | internal/engine/walk.go:473-593 | every step keeps each scheduled directory with one task until its result is there, and nobody asleep while there is more to list than workers about to look |
| Prefetch.ClosedOnce | internal/engine/walk.go:506-530 | no result's channel is closed twice |
| Prefetch.TakesItsOwn | internal/engine/walk.go:555-576 | take returns a listing of the directory it was asked for |
| Prefetch.WaitsExactlyWhenPromised | internal/engine/walk.go:534-576 | in every run take waits if and only if the directory was scheduled before the close and not taken since, and otherwise returns at once |
| Prefetch.WaiterIsServed | internal/engine/walk.go:506-576 | while the walk waits in take some worker can move, and every move of a worker leaves less work |
| Prefetch.CloseEnds | internal/engine/walk.go:580-593 | after close nothing is left to list, every worker that has not left can move, and every move leaves less work |
| Prefetch.ListingPrefetcher.ScheduleDir | internal/engine/walk.go:534-550 | the method takes the machine's step: a directory is queued once, and not after close |
| Prefetch.ListingPrefetcher.NextTask | internal/engine/walk.go:506-519 | and so for a worker that takes the top of the stack, waits or leaves |
| Prefetch.ListingPrefetcher.Deliver | internal/engine/walk.go:523-528 | and so for a finished listing, dropped if nobody waits for it any more |
| PosixPaths.RelPosix | internal/vfs/sftp.go:297-320 | the loops compute the way up over the base's own parts and down to the target |
| PosixPaths.CleanIsClean | internal/vfs/sftp.go:134-137 | cleaning gives a clean path and leaves a clean path alone |
| PathMeaning.CleanLeadsThere | internal/vfs/sftp.go:134-137 | a cleaned path leads where the path leads, from every place, or from the root for an absolute one |
| PathMeaning.OnlyCleanPath | internal/vfs/sftp.go:134-137 | and it is the only clean path that does |
| PathMeaning.JoinLeadsAlong | internal/vfs/sftp.go:134-137 | a joined path leads along its parts one after the other; it is empty if and only if all of them are, and absolute if and only if the first that is not empty is |
| PosixPaths.RelLeadsBack | internal/vfs/sftp.go:297-328 | joining the base with relPosix(base, target) gives back the target, for clean paths both absolute or both relative, if and only if the base has no ".." after the shared parts; absolute bases have none |
| PosixPaths.WithinRootIsPrefix | internal/engine/walk.go:434-443 | withinRoot holds exactly when both paths are absolute or both relative and the root's components are a prefix of the target's, names that start with two dots included; only below a relative root a further ".." leaves it |
| Pool.FreeConn | internal/vfs/pool.go:97-108 | the first free connection that a transfer may have, or none |
| Pool.LeastLoaded | internal/vfs/pool.go:47-58 | a connection with the fewest requests, the first of them from the round-robin start |
| Pool.PoolIsSound | internal/vfs/pool.go:76-143 | in every run connections plus the dial in flight stay within 16, a sleeping transfer has a dial in flight, each open file is on a connection, each connection counts exactly its open files, and all counts together are the open files |
| Pool.NoLostWakeup | internal/vfs/pool.go:76-143 | a transfer sleeps beside a free connection only while a wake-up is on its way |
| Pool.StuckForGood | internal/vfs/pool.go:110-133 | a pool that cannot grow never can again |
| Pool.FailedDialIsTheLast | internal/vfs/pool.go:110-133 | from a failed dial on, in every run, no dial is started, the pool cannot grow and nobody sleeps for a new connection |
| Pool.DialsAreBounded | internal/vfs/pool.go:110-133 | a run has at most 15 dials that succeed and one that fails, in all |
| Pool.DialsExactlyWhen | internal/vfs/pool.go:76-116 | a transfer's pass dials and sleeps if and only if no transfer connection is free, dialing is possible, no dial has failed, the pool is open and has fewer than 16 connections |
| Pool.WaitsAreFinite | internal/vfs/pool.go:76-133 | in every run a sleeping transfer has a dial in flight, at most 16 dials end, the end of each wakes every sleeper, and after the failed or the fifteenth one every pass gives a connection |
| Pool.CloseEndsWaits | internal/vfs/sftp.go:95-101 | a closed pool stays closed and does not grow, and after the close's broadcast nobody sleeps |
| Pool.SharingIsLastResort | internal/vfs/pool.go:76-143 | a connection carries more than one transfer only when the pool can never grow again |
| Pool.BusyIsGivenExactlyWhenStuck | internal/vfs/pool.go:76-133 | a transfer can get a busy connection if and only if none is free and the pool cannot grow; while it can, a transfer that finds none free waits for a dial |
| Pool.FirstIsGivenExactlyWhenShared | internal/vfs/pool.go:76-108 | of several connections the first gets a transfer only by being shared, and can if and only if none is free and the pool cannot grow |
| Pool.FirstCarriesExactlyWhen | internal/vfs/pool.go:76-143 | in every run the first connection carries a transfer if and only if some transfer took it, as the only connection or when the pool could grow no more, and has kept it |
| Pool.FirstCarriesBesideOthers | internal/vfs/pool.go:76-143 | a run to a pool of two connections that can grow, with a transfer on the first |
| Pool.RemoteFS.Acquire | internal/vfs/pool.go:76-92 | one pass of the wait loop takes the machine's step |
| Pool.RemoteFile.Close | internal/vfs/sftp.go:86-93 | a file gives its connection back once, however often it is closed |

## Left out

- DirMeta: is about runs that preserve metadata, the only ones with directory states; the metadata workers are left out, and what
  they do with a queued directory is one opaque call.
- DirStates.DirState.CompleteDirWork: speaks of a call that nothing interrupts; interleaved calls are the machine's steps.
- Gate.Gate.Enter: is one pass of the wait loop; sleeping and waking are steps of the machine.
- Walk.Walker.Visit: paths are places in listings and a link's target is its canonical directory; the lexical loop key of a remote
  walk is not modelled, so nothing is said of loops there.
- RunCopy: entries have paths of their own, so a destination path used by two sources is not modelled, nor is a source path
  walked twice; the copy's content is that of CopyData, and directories are created and removed outside it (Moves removes
  them).  Deferred links are made in any order, of which the loop's is one.
- RunLoss.LostExactlyWhen: an interruption after the links only ends the removals, so it is a run that takes no more steps.
- Runner.Runner.RemoveSource: is about the files and links of RunCopy; the directories and the count of what was removed are those of
  Moves.Removal.RemoveSource.
- Runner.Runner.CopyOne: whether the space guard lets a file pass is given; how it counts free bytes is left out.
- CopyData.CopyShared: whether a clone is found and works is given; the lookup, the claim and the record of the same code are steps of
  DedupProtocol, where their order with other workers is what matters.
- CopyData.CopyDedup: the source is stable while it is read; DedupProtocol has it change.
- DedupFinish.FinishesAlone: with claims of others in flight a worker may have to wait; DedupClaims.WaitersAreServed and
  DedupClaims.HoldersFinish say for how long.
- Controller.ScalingReachesMax: throughput is a real number, as in all results about the controller.
- RunCounts.DryRunTells: does not cover entries that lead to one destination file without being names of one source inode;
  syncing the attributes of one then changes the verdict about the other.
- RunSafety.HardlinksAreKept: says nothing of the converse; two source inodes may adopt one destination inode.
- Mirror.Pass.MirrorDir: an Lstat that fails for another reason than absence is not told apart, as in the code; restoring a
  directory's times after deletions is left out.
- Pool.PoolIsSound: the round-robin counter is unbounded, and a connection whose dial finishes after Close is left out.
- DedupTally.TransferredOnce: says nothing of one transfer when a longer record covers the extent, because then there is none.
- Queue.FifoWithoutLostWakeups: the backing array of the slice is left out.
- Prefetch.TakesItsOwn: says what directory a listing is of, not when it was read; Walk takes the tree as fixed.
- CopyFiles.CopyFile: the second try of a refused rename over a read-only target is left out, and so are clones by other workers
  while copyData runs, which are those of DedupProtocol.
- MirrorRun.MirrorBoth: is about one mirrored root; with --move it speaks of the moment before the removals, when the pass runs.
- Moves.Removal.RemoveMovedSources: the files go one after the other, in any order; the workers that share them are left out.
- MoveOrder.DirsAreBottomUp: is about a walk that nothing interrupts; after an interrupted one the pass does not run.
- MoveRun.RemoveMoved: is about one source root.
- RunAgain.SecondRunIsQuiet: assumes that setting attributes succeeds and that the two trees share no inode.
- PosixPaths.WithinRootIsPrefix: is about the Rel of an SSH filesystem; a local one uses the library's Rel, which for clean absolute
  paths is the same algorithm.
- Glob matching: excluded is any predicate on paths.
- renameRoot, ensureRoot and the resolution of sources and targets.
- Integer widths: sizes, offsets and counters are unbounded; throughput is a real number.
- xattrs, ACLs, ownership and error classes; metadata is one opaque application to a path.
- ssh processes, SFTP packets, device and CPU sampling, progress text, the space guard, the watchdog and the command line.
- Directory "updated" counts, which only dry and verbose runs keep.
