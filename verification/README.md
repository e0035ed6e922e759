# CardPit ingest engine: a verified model

CardPit copies every file of an inserted memory card to a destination disk, never copies a file twice,
never overwrites anything, and tells the operator when a card may be removed. Its promise is that no media
is lost, corrupted or needlessly copied again while cards are pulled, several jobs run at once and the
process dies. This project models the code that carries that promise and proves it.

Run `dafny verify dfyconfig.toml` to check everything.

## How the model is laid out

| file | what it models |
|---|---|
| `Text`, `Jobs`, `Names` | decimal counters, job ids and causes, tmp names, the choice of a free final name |
| `CopyProtocol` | any number of copies into one destination, step by step, with crashes and the boot sweep |
| `CrashLosses` | the ledger of final files without an index row: which there are, and why |
| `DestVolume` | the destination as one job sees it: other jobs' steps may come between any two of its own |
| `Streaming`, `Copier` | the read/write loop, hashing, verification, tmp clean-up and retries of one file |
| `Progress`, `JobEvents` | counters and progress reports of a job; statuses, events and their grammar |
| `Scan`, `Dedup`, `JobRunner`, `IngestRun` | one run, from scan to eject |
| `CutRuns`, `Resume`, `Twins` | runs cut off anywhere, and what any runs on one card copy together, in turn or at once |
| `JobTable` | the jobs table and boot recovery |
| `ManagerTables`, `ManagerProtocol`, `ManagerSteps`, `ManagerRuns`, `ManagerTheorems` | the job manager: its three maps, its event loop, one goroutine per job, Cancel calls |
| `ManagerLaws`, `ManagerVerdicts` | what an attach, an answer, a detach, a Cancel and a retry come to; over whole runs, what stopped a run and how jobs end |
| `ManagerVolumes` | which jobs of a volume Cancel, detach and the guard against second jobs can see |
| `RetryWindow`, `Counterexamples` | runs of the manager in which an expected law fails |
| `VolumeWatcher` | detection of attached and detached volumes over any polls |
| `SlotNames`, `EditThrottle`, `EventBus`, `LogRing` | reader names, message edits, event delivery, recent log records |

Concurrency is modelled at the grain of the code's own locks. `CopyProtocol` and `ManagerProtocol` are state
machines whose actions interleave freely; theorems about them hold for every legal log of actions. The classes
(`Destination`, `Meter`, `Manager`, `Watcher`, `SlotStore`, `Dispatcher`, `Bus`, `Subscription`, `Ring`,
`JobRepo`) have the fields the source updates in place; their methods say what the new state is in terms of
the functions the theorems are about. `Destination` holds a protocol state and the log that led to it, and
lets arbitrary steps of other jobs happen before every step of its own, so what is proved about the copier
and the runner holds in every interleaving.

Assumptions: a card's content does not change while a run reads it; nobody outside the engine edits the
destination; a rename is one durable step (the source syncs the file and not its directory, so this is an
assumption about the file system, and `docs/PRD.md` takes it for granted); a crash may cut a file's unsynced
bytes and nothing else: rows once committed stay, although `core/internal/store/store.go:41` opens the database
with a write-ahead log and `synchronous(NORMAL)`, where a power loss (not the death of the process) may roll back
the latest ones; two jobs never have the same id. The hash is an arbitrary function `h` of the bytes:
equality of hashes is claimed, and equality of contents only for a medium that stores what it is given
(`faithful`). Clocks, reads that fail or come in any chunks, calls and table writes that fail, media that may store
wrong bytes, and every answer of the platform are arbitrary. Where a contract says what happens if nothing fails,
`smooth` stands for that, `honest` for a medium that stores what it is given, `removes` for removals that work.

## Where the code does not keep a law

For each: when exactly it fails, and a concrete run in which it does.

* A job that is over stays over, except when `retryBlocked` admits it again although it is no longer blocked:
  `Cancel` takes a job out of `blocked` after it was listed and before its turn, and the loop deletes and admits
  it without looking. Exactly when: `ManagerTheorems.BrokenExactlyWhen` (a settled job's row was written against
  the status machine if and only if its run contains that step). A run: `RetryWindow.CancelledJobCopies`.
* Every open job has an owner, except when a second volume with the same serial is asked about while the first
  still waits. Exactly when: `ManagerTheorems.DisplacedExactlyWhen` with `OpenJobsAreOwned` (until shutdown these
  are exactly the open jobs nobody will ever settle). A run: `Counterexamples.QuestionLost`.
* An accepted Cancel ends the job, except when its run parks and is retried later. The destination is looked for
  with the job's own context, whose cancellation makes the settings query fail and the destination count as
  missing, so a cancelled job that gets that far parks whether the disk is there or not. Exactly when:
  `IngestRun.Run` (a run ends parked if and only if its plan was completed and, at the lookup, the job was
  cancelled or the disk was not there; a job cancelled before its run has a completed plan exactly if the scan found
  no files, since the plan looks at the context for every file; otherwise the Cancel came after that last look). A
  run: `Counterexamples.CancelledJobParks`, where the cancelled job is parked, admitted again with a fresh context,
  and copies.
* An active job can be cancelled, and a detach reaches it, except while the event loop has it in hand, while its
  goroutine waits for the semaphore or has not registered, and after another run of the same volume overwrote or
  deleted its `byGUID` entry. Exactly when: `ManagerVolumes.CancelFindsExactlyWhen`, `NamedExactlyWhen` and
  `DetachFindsExactlyWhen`. Runs: `Counterexamples.QueuedJobIsInvisible` and `TwinsBothCopy`.
* A volume has one job at a time, except when the guard looks while a job of the volume is where the guard does not
  see it. Exactly when: `ManagerVolumes.TwoExactlyWhen` (two jobs of a volume are ever open, or with somebody, at
  once if and only if it was given one while it had one), `SecondNeedsBlindLook` (that takes a look which missed a
  job with a goroutine without entry, a job whose Cancel had yet to write its row, or a lost job) and
  `TrackedExactlyWhen` (what the guard sees). A run: `Counterexamples.TwinsBothCopy`, where a card pulled and put
  back gets a second job, both run at once, and the first can no longer be cancelled.
* Automatic reader names are never reused, except that the code ignores a failed log append, and a slot whose
  insert worked and whose read-back failed keeps its name without one. Exactly when:
  `SlotNames.HandedAgainExactlyWhen` (the next name was handed out before if and only if an assignment the log
  missed bears it). A run: `SlotNames.FailedAppendReuses`.
* No file is copied twice, except one whose insert failed, one whose run died between rename and insert, and one
  that two runs at the same time each decided about before the other's row was in. Exactly which:
  `Resume.CopiedTwice` and `OneLogBound`; `CutRuns.CutAnywhere` and `CrashLosses.LossesExplained` say which files
  have no row. Two runs of one card at once: `Counterexamples.TwinsBothCopy`; such runs copy a file twice, whatever
  the file and the destination: `Twins.TwinsCopyTwice`.

Code and documentation disagree in three places, and the model follows the code: the schema comment of
`core/internal/store/migrations/0001_init.sql` says that an open question survives a restart, while recovery
cancels it; the comment on `KickDestRetry` speaks of a 30 s tick, while the interval is 5 s; `docs/PRD.md`
(RF-03.3) names tmp files after the file alone, while the code adds a sequence number.

## Model

| member | source | states |
|---|---|---|
| `Names.TmpNameInjective` | core/internal/engine/copier.go:80-83 | Copies that drew different sequence numbers never share a tmp name, whatever the two files are called. |
| `Names.CandidatesDistinct` | core/internal/engine/copier.go:150-163 | The names tried for one file are pairwise distinct. |
| `Names.CandidateTmp` | core/internal/engine/copier.go:155-158 | Numbering a name neither makes it end in the tmp suffix nor stops it from doing so. |
| `Names.CandidateIs` | core/internal/engine/copier.go:150-163 | The i-th further name is the stem, the number i in parentheses, and the extension, which begins at the last dot. |
| `Text.DecimalValue` | core/internal/engine/copier.go:82 | Counters are rendered as the digits of their value, without leading zeros. |
| `Names.Pigeonhole` | core/internal/engine/copier.go:157-162 | If the first k names tried are all taken, the directory holds at least k names, so the search ends. |
| `Names.PickFreeName` | core/internal/engine/copier.go:150-163 | For every finite directory the search ends and yields the first free name in its order; it ends in the tmp suffix only if the entry's own name does. |
| `CopyProtocol.TmpsDistinct` | core/internal/engine/copier.go:80-83 | Two live copies never have the same tmp path. |
| `CopyProtocol.RenameKeepsFiles` | core/internal/engine/copier.go:136-145 | The rename lands on a path that is still free although other jobs ran since the name was picked, and the file it makes final is as long as the whole source, synced and checked. |
| `CopyProtocol.StepKeeps` | core/internal/engine/copier.go:69-146 | Every step of every copy, a crash and the sweep included, keeps the invariant: each final file is an original, or synced, checked and a copy of the whole source file; each index row names such a file, with its length and the hash of the whole source. |
| `CopyProtocol.RunKeeps` | core/internal/engine/copier.go:69-146 | The same over any interleaving of any number of copies, crashes and restarts. |
| `CopyProtocol.NoStrayTmp` | core/internal/engine/copier.go:88-92 | In every reachable state a tmp file belongs to a live copy, or its removal failed, or a crash left it behind. |
| `CopyProtocol.CrashSafe` | core/internal/engine/copier.go:69-146 | In every reachable state a final file is either an original one, byte for byte as it was, or synced, as long as the whole source file and equal to it if the medium was honest, with the checked hash of the whole source (in paranoid mode its own hash, honest or not); every index row names such a file, with its length, timestamp and hash. |
| `CopyProtocol.FinalsForever` | core/internal/engine/copier.go:148-149 | Final files and index rows, once there, stay there unchanged through every continuation, crashes included. |
| `CopyProtocol.SweepRestores` | core/internal/engine/manager.go:88-98 | After a crash at any moment, a sweep whose removals work leaves exactly the final files there were before the crash. |
| `DestVolume.Noninterference` | core/internal/engine/copier.go:133-145 | Whatever other jobs do, in any number of steps, a job's copy, its tmp file, its final files and its index rows stay as they are. |
| `DestVolume.Destination.Invariant` | core/internal/engine/copier.go:69-146 | Whatever sequence of operations led to a destination object, its state satisfies the protocol's invariant. |
| `DestVolume.Destination.Do` | core/internal/engine/copier.go:69-146 | Each operation is one enabled step of the protocol and only adds final files and rows. |
| `DestVolume.Destination.Die` | core/internal/engine/manager.go:73-79 | The process dies at any moment: running copies are gone, final files, receipts and rows are as they were. |
| `DestVolume.Destination.Interfere` | core/internal/engine/copier.go:27-33 | Any enabled steps of other jobs may happen here, and leave this job's view as it was. |
| `DestVolume.Destination.CreateTmp` | core/internal/engine/copier.go:80-87 | Opens a fresh tmp file for the job's copy and changes no final file. |
| `DestVolume.Destination.Write` | core/internal/engine/copier.go:185-212 | Stores a chunk, perhaps short or wrong, while the hash absorbs all of it. |
| `DestVolume.Destination.SyncTmp` | core/internal/engine/copier.go:102-111 | Syncs the tmp file and fixes the hash of what was read. |
| `DestVolume.Destination.PickName` | core/internal/engine/copier.go:138-140 | Holding the rename lock, a free name is picked. |
| `DestVolume.Destination.RenameTmp` | core/internal/engine/copier.go:140-145 | Adds exactly one file to the job's final files, at a path that was free. |
| `DestVolume.Destination.InsertRow` | core/internal/store/files.go:23-29 | Adds exactly one index row, with the entry's size and mtime and the copy's hash, or fails and adds none. |
| `DestVolume.Destination.Cleanup` | core/internal/engine/copier.go:88-92 | The copy is gone, nothing was finalized, and if removals work no tmp file of the job is left. |
| `Streaming.StreamStep` | core/internal/engine/copier.go:185-212 | One read moves a chunk from what is to come to what has been read; at EOF everything has been read. |
| `Streaming.HashFile` | core/internal/engine/copier.go:166-179 | Whatever the chunking, a hash returned is the hash of the whole file. |
| `Copier.CopyBuffer` | core/internal/engine/copier.go:185-212 | A nil return means that the source was read to its end and every byte went into file and hash, whatever the chunking; any other return leaves a prefix. A faithful medium then holds just these bytes. |
| `Copier.StoreChunk` | core/internal/engine/copier.go:191-204 | One write: a short one makes the copy unusable, and the bytes reported are the bytes written. |
| `Copier.Pump` | core/internal/engine/copier.go:187-211 | One pass of the loop keeps what is written a beginning of the source, and at EOF it is the whole source. |
| `Copier.CheckHashes` | core/internal/engine/copier.go:111-131 | A hash mismatch is reported exactly if a hash was planned and the copy's differs, a paranoid one only if the stored bytes hash otherwise, and nothing else stands in the way but a failed second read in paranoid mode; passing means all of it agreed. |
| `Copier.FillTmp` | core/internal/engine/copier.go:69-111 | Success, certain if no call fails, means a synced tmp file whose hash is the hash of the entry's whole content. |
| `Copier.GiveUp` | core/internal/engine/copier.go:88-92 | After a failed attempt nothing of the job's is left: no copy, no final file, no row and, if removals work, no tmp file. |
| `Copier.Finalize` | core/internal/engine/copier.go:136-145 | Either exactly one final file was added, under the first free name, or nothing was, and then a call failed. |
| `Copier.CopyOnce` | core/internal/engine/copier.go:69-146 | One attempt is atomic in the same sense, and a copied file carries the hash of its source; a failure is explained, and there is none if no call fails, the plan is right and the medium honest. |
| `Copier.CopyOne` | core/internal/engine/copier.go:47-67 | All attempts together are atomic; there are at most four, and fewer only if the disk was full or the job was cancelled. Success adds exactly one final file, the hash being that of the source content and the planned one where there was one. A mismatch reported is one, and with no call failing, a right plan and an honest medium the first attempt succeeds. |
| `Scan.SkipDirIs` | core/internal/engine/scan.go:37-42 | A directory is skipped exactly if its name begins with a dot or spells, in whatever case, one of the four system names. |
| `Scan.SkipFileIs` | core/internal/engine/scan.go:44-48 | A file is skipped exactly if its name begins with a dot, spells one of the three system names, or ends in the tmp suffix, in whatever case. |
| `Scan.TmpNamesAreSkipped` | core/internal/engine/scan.go:78-80 | A name ending in the tmp suffix is never picked up from a card. |
| `Scan.ScanSource` | core/internal/engine/scan.go:64-98 | The walk returns what the following four say, or fails as a whole. |
| `Scan.ScanIsScanned` | core/internal/engine/scan.go:64-98 | No entry has a tmp name, and each entry's size is its file's size on a card that reports honestly. |
| `Scan.ScanFindsAll` | core/internal/engine/scan.go:64-98 | A successful scan contains every file that is no system file and lies in no system directory, with its path, name, size and timestamp. |
| `Scan.ScanFindsOnly` | core/internal/engine/scan.go:64-98 | And nothing else: each entry is such a file, and they come in the order of the walk, each once. |
| `Scan.ScanFailsExactlyWhen` | core/internal/engine/scan.go:67-70 | A scan fails exactly if the walk meets something unreadable outside the system directories. |
| `Dedup.NotIndexedIs` | core/internal/engine/job.go:165-168 | The reference: in order, exactly the entries whose size, mtime and content hash are in no index row. |
| `Dedup.TwoStageIsSimple` | core/internal/engine/job.go:165-201 | With a steady index, the entries the two-stage plan keeps are exactly the reference's, in its order. |
| `Dedup.Decide` | core/internal/engine/job.go:170-199 | One entry is skipped exactly if its size, mtime and hash were in the index when it was looked at; a kept one carries a planned hash exactly on a size and mtime collision, and then it is its content's. |
| `Dedup.DecidedMeans` | core/internal/engine/job.go:170-199 | In terms of the rows: skipped exactly if one has the entry's size, timestamp and hash; kept with the hash exactly if one has its size and timestamp; otherwise unchanged. |
| `Dedup.PlanDedup` | core/internal/engine/job.go:168-201 | The plan makes that decision for each entry in order, while other jobs may be adding rows; skipped and kept entries add up to all of them. |
| `Progress.Meter.Flush` | core/internal/engine/job.go:219-230 | Reports progress exactly when forced, at the fiftieth call or after 2 s, and never more bytes than the job has. |
| `Progress.Meter.Report` | core/internal/engine/job.go:105-108 | Reporting bytes in flight keeps bytes done within the total, also when a retry starts the file over. |
| `Progress.Meter.FileDone` | core/internal/engine/job.go:127-129 | One more file and its bytes counted, nothing else. |
| `Progress.Meter.FileLost` | core/internal/engine/job.go:114-117 | One more failure counted, nothing else. |
| `JobEvents.TrackerIsGrammar` | core/internal/engine/job.go:50-163 | What the tracker accepts is DestMissing, or JobFailed, or JobStarted, some JobProgress, and JobCompleted or JobFailed. |
| `JobEvents.GrammarIsTracked` | core/internal/engine/job.go:50-163 | Conversely, every trace of that grammar whose statuses match is accepted. |
| `JobEvents.TrackedMatches` | core/internal/engine/job.go:50-163 | And accepted traces have matching statuses: the tracker accepts exactly the matching traces of the grammar. |
| `JobEvents.EventsMatchStatus` | core/internal/engine/job.go:203-254 | In an accepted run every event carries the status written last before it, and progress never claims more bytes than the total. |
| `JobEvents.TrackedStatusIsWritten` | core/internal/engine/job.go:76-153 | The status the tracker carries is the one last written to the jobs table. |
| `JobRunner.IndexedIsSecured` | core/internal/store/files.go:34-55 | What the index says is there is on the destination: durable, as long as the entry, with its timestamp and the checked hash of its content. |
| `JobRunner.SecuredBytes` | core/internal/engine/job.go:50-163 | If the hash tells files apart and the medium was honest, a secured entry's very bytes are on the destination. |
| `JobRunner.SecuredForever` | core/internal/engine/copier.go:148-149 | A secured entry stays secured. |
| `JobRunner.RecordFile` | core/internal/engine/job.go:120-126 | Recording finalizes nothing; the row, if written, makes the entry indexed. |
| `JobRunner.IngestFile` | core/internal/engine/job.go:100-126 | Adds exactly one file of the job's, holding the entry's whole content (byte for byte on an honest medium), in the given directory under the first free name and checked as the mode says, or none; one, with its row, if nothing fails. |
| `JobRunner.CopyEntry` | core/internal/engine/job.go:100-130 | One pass of the loop counts the file as copied, with its whole content where it belongs, or counts it as failed, or stops because the job was cancelled; it copies and records it if nothing fails. |
| `JobRunner.CopyAll` | core/internal/engine/job.go:100-131 | After the loop copied and failed add up to the files handled, the bytes are the sum of the copied files' sizes, each copied file is on the destination in the directory of its timestamp under the first free name, checked as the mode says, and these are all the files the job put there; none failed if nothing did. |
| `JobRunner.NeedIsSum` | core/internal/engine/job.go:85-93 | For every byte count of 63 bits the space demand is payload plus 256 MiB, without wrap-around. |
| `JobRunner.SizeOfAll` | core/internal/engine/job.go:66-68 | The bytes of all the files copied are the run's total. |
| `JobRunner.FailRun` | core/internal/engine/job.go:203-216 | A run that fails before copying ends in one status write and one matching JobFailed with the counters, as cancelled exactly if the user did it. |
| `JobRunner.Finish` | core/internal/engine/job.go:133-162 | Cancelled, failed, done with failures or done: the status follows the first cause, the last event has the counters, and the card is ejected exactly if the run is done without failures and ejecting is on. |
| `IngestRun.KeptNotIndexed` | core/internal/engine/job.go:168-201 | A planned entry was not in the index when the run began. |
| `IngestRun.AllLanded` | core/internal/engine/job.go:100-130 | If every planned copy landed, every scanned entry is on the destination, and indexed if all rows were written. |
| `IngestRun.LandedFromPlan` | core/internal/engine/job.go:100-130 | What the loop copied, seen as positions of the scan: secured, not indexed before, and with the same total size. |
| `IngestRun.ParanoidIsReread` | core/internal/engine/copier.go:119-131 | In paranoid mode what the medium holds of each file the run copied hashes to what the card's file hashes to, honest or not. |
| `IngestRun.PlacedFromPlan` | core/internal/engine/job.go:104-105 | Files placed as the copy list says are placed as the scan says: the directory comes from the timestamp, the name from the entry's. |
| `IngestRun.Run` | core/internal/engine/job.go:50-163 | The whole run: it adds to the destination exactly the files it says, each the whole of its source and not indexed before, each in the directory of its timestamp under the first free name, and read again in paranoid mode; emits one event sequence of the grammar with matching statuses, the last event and the row carrying the counters; ends done exactly if it started and was not cancelled, cancelled exactly if the user did it, and parked if and only if the plan was completed and at the lookup the job was cancelled or the destination missing, which for a job cancelled before means an empty scan; starts exactly if planned, not parked and with room for payload and margin; its counters add up, to all files and bytes if done without failures; then, hence if ejected, every scanned entry is on the destination; if no call fails, nobody cancels, the medium is honest, the destination there and room enough, it is done without failures and every scanned entry indexed; a fully indexed card is not copied again. |
| `CutRuns.CutAnywhere` | core/internal/engine/job.go:87-131 | A run's execution, cut off after any step of anybody's: its outcome has exactly the files final by then, which were not indexed when they were decided about, and all of them are indexed now but for those whose insert failed and at most one more: the one renamed and not yet recorded. |
| `Resume.CopiedTwice` | core/internal/engine/job.go:168-201 | Any two runs on a card, overlapping or not: a file copied by both was left without a row by one of them, or each decided about it before the other's row was in, and neither was over when the other began. |
| `Resume.CopiedAgainOnlyIfMissed` | core/internal/engine/job.go:168-201 | After a run that is over, wherever it was cut off, an entry is copied again only if that run left its file without a row. |
| `Twins.CopyGoesThrough` | core/internal/engine/copier.go:69-146 | With no copy running, every file can be copied to every directory, whatever the destination holds. |
| `Twins.TwinsCopyTwice` | core/internal/engine/job.go:165-201 | For every file and every destination there is a log, with no crash and no failed insert, on which two runs that decided before either copied put the file there twice: two copies of one entry, one of them a rival's. |
| `CrashLosses.LedgerKept` | core/internal/engine/job.go:105-126 | In every run of the protocol the ledger is in order. |
| `CrashLosses.LossesExplained` | core/internal/engine/job.go:105-126 | Every final file has a row, or its job is about to write it, or its insert failed, or a crash came in between, and only one of these; a crash leaves at most one such file per job. |
| `Resume.CopiesAreFiles` | core/internal/engine/job.go:168-201 | The number of copies over any runs is the number of entries copied for good, plus the copies that missed the index, plus the copies for good of an entry that another run copied for good as well. |
| `Resume.CopiesBounded` | core/internal/engine/job.go:168-201 | So any runs together make at most as many copies as the card has entries, plus those that missed the index, plus those of rivals. |
| `Resume.RivalsOverlap` | core/internal/engine/job.go:168-201 | A rival's copy comes from two runs neither of which was over when the other began. |
| `Resume.NoRivals` | core/internal/engine/job.go:168-201 | Runs one after the other make no rival copies. |
| `Resume.OneLogBound` | core/internal/engine/job.go:87-131 | On one log of the destination, with crashes, and runs of different jobs each given by its piece of the log and cut off anywhere: copies number at most the entries, plus the inserts that failed, plus the runs cut off while their copy waited for its row, plus rival copies. |
| `Resume.ApartNoRivals` | core/internal/engine/job.go:87-131 | There, pieces that do not overlap have no rival copies. |
| `Resume.NothingAfterComplete` | core/internal/engine/job.go:168-201 | A run after one that left every entry indexed copies nothing. |
| `JobTable.RecoveryIsTotal` | core/internal/store/jobs.go:205-223 | After recovery a job that was being copied has failed, with the error; one that had not begun is cancelled, its error as it was; one that was over is as it was, and none is done that was not; no counter is lost and each change is one the status machine has. |
| `JobTable.RecoveryIdempotent` | core/internal/store/jobs.go:205-223 | Recovering twice is recovering once. |
| `JobTable.JobRepo.FailInterrupted` | core/internal/store/jobs.go:208-223 | If no statement fails, every row is settled in that way; if one does, each row is settled in that way or untouched. |
| `JobTable.JobRepo.Create` | core/internal/store/jobs.go:62-73 | A new row, with no counts yet, under an id never used before, or no change if the insert fails. |
| `JobTable.JobRepo.Write` | core/internal/store/jobs.go:91-122 | Writing an effect of a run changes that job's row, as the effect says, and no other. |
| `JobTable.RowFollowsRun` | core/internal/engine/job.go:50-163 | After a run its row has the status of the run's last event, and is finished exactly if the job is over. |
| `JobTable.RowHasNumbers` | core/internal/store/jobs.go:102-114 | And the row has the totals and the progress that the run wrote last. |
| `JobTable.JobRepo.Finish` | core/internal/store/jobs.go:117-122 | Sets status, error and finish of that row, and of no other. |
| `JobTable.JobRepo.Active` | core/internal/store/jobs.go:153-171 | Lists exactly the jobs not over, oldest first. |
| `JobTable.Recover` | core/internal/engine/manager.go:75-103 | Boot: every row settled as said, or untouched if a statement failed; no final file and no index row touched; no tmp file left if the destination is there and removals work. |
| `ManagerTables.Manager.IsTracked` | core/internal/engine/manager.go:226-243 | True exactly for a volume with a registered, blocked or awaiting job. |
| `ManagerTables.Manager.FindBlocked` | core/internal/engine/manager.go:391-398 | Some blocked job of the volume, if it has one. |
| `ManagerTables.Manager.FindAwaiting` | core/internal/engine/manager.go:399-406 | Some awaiting job of the volume, if it has one. |
| `ManagerTables.Manager.SnapshotBlocked` | core/internal/engine/manager.go:361-371 | Lists every blocked job once. |
| `ManagerTables.Manager.TakeDetached` | core/internal/engine/manager.go:387-407 | Finds the volume's running job and takes out at most one blocked and one awaiting job of it. |
| `ManagerTables.Manager.TakeDecided` | core/internal/engine/manager.go:423-433 | Takes out the question filed under the serial. |
| `ManagerTables.Manager.TakeCancelled` | core/internal/engine/manager.go:460-483 | Finds the job among running, then blocked, then awaiting ones, and takes it out unless it is running. |
| `ManagerTables.Manager.Unregister` | core/internal/engine/manager.go:327-332 | Deletes the volume's entry, and parks the job if its destination was missing. |
| `ManagerTheorems.StepKeeps` | core/internal/engine/manager.go:262-483 | Every move of the loop, of a goroutine or of a Cancel call keeps the manager's invariant. |
| `ManagerTheorems.RunKeeps` | core/internal/engine/manager.go:106-483 | The same over every interleaving. |
| `ManagerTheorems.OneOwner` | core/internal/engine/manager.go:278-338 | A job is in one place only: under one serial in `awaiting`, in `blocked`, with one goroutine, or with the loop; a Cancel call that took it out has it alone, unless it was revived. |
| `ManagerTheorems.RegisteredRunsAreLive` | core/internal/engine/manager.go:300-332 | Every `byGUID` entry names a live runner of that volume and job, and at most `maxJobs` goroutines are past the semaphore. |
| `ManagerTheorems.OpenJobsAreOwned` | core/internal/engine/manager.go:278-338 | Until shutdown, an open job is without an owner exactly when its question was overwritten. |
| `ManagerVolumes.NamedExactlyWhen` | core/internal/engine/manager.go:308-332 | A run has a `byGUID` entry exactly if it registered and no run of its volume has registered or unregistered since. |
| `ManagerVolumes.CancelFindsExactlyWhen` | core/internal/engine/manager.go:460-483 | Cancel finds a job exactly if it awaits a decision, is blocked, or runs in a goroutine that registered with no run of its volume registering or unregistering since. |
| `ManagerVolumes.DetachFindsExactlyWhen` | core/internal/engine/manager.go:387-411 | A detach cancels exactly the run of that volume of which the same holds. |
| `ManagerVolumes.TrackedExactlyWhen` | core/internal/engine/manager.go:226-243 | The guard against a second job sees the volume exactly if one of its jobs is in a place where Cancel finds it. |
| `ManagerVolumes.TwoExactlyWhen` | core/internal/engine/manager.go:144-187 | Two jobs of a volume are open, or with somebody, at one moment of a run if and only if the volume was given a job while it had one. |
| `ManagerVolumes.SecondNeedsBlindLook` | core/internal/engine/manager.go:144-150 | That takes a look at the maps while a job of the volume was with a goroutine that has no entry, owed its row by a Cancel call, overwritten in `awaiting`, or given up at shutdown. |
| `ManagerTheorems.QueuedIsInvisible` | core/internal/engine/manager.go:300-314 | A job whose goroutine waits for the semaphore or has not registered is in none of the maps and cannot be cancelled. |
| `ManagerTheorems.DisplacedExactlyWhen` | core/internal/engine/manager.go:289-291 | Such jobs exist exactly in runs where a question was filed under a serial that already had one. |
| `ManagerTheorems.RevivedExactlyWhen` | core/internal/engine/manager.go:367-384 | A job counts as revived exactly when the run took it off the retry list although it was no longer blocked. |
| `ManagerTheorems.RowsFollow` | core/internal/engine/manager.go:361-456 | Every change of a row is one the status machine has and none leads to `verifying`, unless the job was revived; which change an answer, a Cancel or a detach makes is said by the laws below. |
| `ManagerTheorems.TerminalStays` | core/internal/engine/manager.go:361-483 | A job that is over keeps its row through every continuation, unless it was revived. |
| `ManagerTheorems.BrokenExactlyWhen` | core/internal/engine/manager.go:361-384 | For a settled job not given up at shutdown: its row was written against the status machine if and only if the run revived it. |
| `ManagerTheorems.LifeIsGrammar` | core/internal/engine/manager.go:325-338 | What a job's event tracker accepts over all its runs: some DestMissing, then at most one run of another kind. |
| `ManagerTheorems.EventsInOrder` | core/internal/engine/manager.go:299-338 | In every reachable state the tracker accepts every job's events, revived jobs included. |
| `ManagerTheorems.RunFitsLife` | core/internal/engine/job.go:50-163 | A single run's events, if its own tracker accepts them, take the job's tracker to the same phase. |
| `ManagerLaws.AskingAsks` | core/internal/engine/manager.go:278-293 | A card to ask about gets a row awaiting the decision and its question under its serial, and nothing runs. |
| `ManagerLaws.AdmittingAdmits` | core/internal/engine/manager.go:262-276 | Any other card gets a pending row and a goroutine that waits for the semaphore. |
| `ManagerLaws.CopyAnswerAdmits` | core/internal/engine/manager.go:435-450 | The answer copy makes that job pending and gives it a goroutine, and changes no other row. |
| `ManagerLaws.OtherAnswerCancels` | core/internal/engine/manager.go:451-455 | Any other answer cancels that job, which is gone then, and changes no other row. |
| `ManagerLaws.RetryAdmits` | core/internal/engine/manager.go:378-384 | A listed job's turn takes it out of `blocked` and gives it a goroutine; no row changes. |
| `ManagerLaws.DetachTakes` | core/internal/engine/manager.go:387-420 | A detach takes out the volume's blocked job, to be failed, and its question, to be cancelled, and writes nothing yet. |
| `ManagerLaws.SettleWrites` | core/internal/engine/manager.go:412-420 | Then the loop writes them, each the end of its job. |
| `ManagerLaws.DetachStopsRun` | core/internal/engine/manager.go:408-411 | A detach cancels the volume's registered run for that reason, unless it was cancelled before, and no other. |
| `ManagerLaws.CancelEnds` | core/internal/engine/manager.go:470-482 | A Cancel that finds a blocked or awaiting job takes it out of the maps and ends it as cancelled, and changes no other row. |
| `ManagerLaws.CancelStopsRun` | core/internal/engine/manager.go:460-468 | A Cancel that finds a run cancels its context, unless cancelled before, and changes nothing else. |
| `ManagerLaws.RunLeaves` | core/internal/engine/manager.go:325-338 | A run that missed its destination leaves its job blocked and pending, unless revived; any other leaves it in no map and over. |
| `ManagerVerdicts.CauseExactlyWhen` | core/internal/engine/manager.go:300-468 | Over every run: a run's context is cancelled exactly by the first Cancel that found it, detach that found it, or shutdown. |
| `ManagerVerdicts.EndsAsDecided` | core/internal/engine/manager.go:325-482 | Over every run: a job that is over, unless revived, ended as the log last decided (failed by a detach while blocked, cancelled by a detach, an answer or a Cancel while it was a question or blocked, or as its own run ended); and what the log decided is in the row, or the loop or a Cancel call still has it to write. |
| `ManagerVerdicts.PendingExactlyWhenAnswered` | core/internal/engine/manager.go:423-455 | Over every run: a job that was asked about becomes pending exactly if the operator says copy. |
| `RetryWindow.CancelledJobCopies` | core/internal/engine/manager.go:361-384 | A concrete run in which a job's row is `cancelled` and later `copying`. |
| `Counterexamples.CancelledJobParks` | core/internal/engine/manager.go:325-384 | A concrete run in which Cancel finds a running job, and the job is parked, pending, admitted again and copying all the same. |
| `Counterexamples.TwinsBothCopy` | core/internal/engine/manager.go:144-332 | A concrete run in which two jobs of one volume copy at once and Cancel does not find the one that registered first. |
| `Counterexamples.QueuedJobIsInvisible` | core/internal/engine/manager.go:300-314 | A concrete run in which Cancel does not find an open job, its volume is untracked, and a second job is created for it. |
| `Counterexamples.QuestionLost` | core/internal/engine/manager.go:289-291 | A concrete run after which an open job has nobody to settle it. |
| `VolumeWatcher.SinceExactlyWhen` | core/internal/watcher/watcher.go:87-107 | The debounce counts from a poll exactly if it listed the volume, no successful listing since lacked it, and one lacked it after each earlier poll that listed it. |
| `VolumeWatcher.LifeOk` | core/internal/watcher/watcher.go:87-166 | Over any polls: a volume is tracked exactly while listings have had it, since the poll its debounce counts from; its events alternate Attached, Detached; `attached` says which came last, and the info and slot kept are that event's. |
| `VolumeWatcher.AttachesExactlyWhen` | core/internal/watcher/watcher.go:101-152 | After any polls, a poll attaches a volume if and only if it is listed, not attached, not paused, its info is readable, and it has been there for the debounce time, plus 5 s if its slot is unresolved; and then the one event is Attached with that info and slot. |
| `VolumeWatcher.NothingElse` | core/internal/watcher/watcher.go:87-166 | A poll emits at most one event about a volume. |
| `VolumeWatcher.DetachesExactlyWhen` | core/internal/watcher/watcher.go:154-165 | A poll detaches a volume if and only if a successful listing lacks it and it is attached; and then the one event is Detached. |
| `VolumeWatcher.Watcher.Poll` | core/internal/watcher/watcher.go:87-166 | One poll moves every volume's state and events as the per-volume machine says. |
| `VolumeWatcher.Watcher.PromoteAll` | core/internal/watcher/watcher.go:101-152 | The first loop does so for the volumes listed and touches no other. |
| `VolumeWatcher.Watcher.DropDeparted` | core/internal/watcher/watcher.go:154-165 | The second loop does so for the volumes not listed and touches no other. |
| `VolumeWatcher.Watcher.Snapshot` | core/internal/watcher/watcher.go:168-179 | Exactly the volumes present since some successful listing, attached exactly if their last event says so. |
| `SlotNames.NextSlotName` | core/internal/engine/slotnames.go:25-39 | The first pool name neither logged nor in use, or, with the pool exhausted, the numbered one. |
| `SlotNames.NextIsNew` | core/internal/engine/slotnames.go:22-39 | The next name is never one the log has, and appending it keeps the log's invariant. |
| `SlotNames.NextIsFirstFree` | core/internal/engine/slotnames.go:25-39 | While the pool has a name neither logged nor in use, the next name is the first such; after that it is the numbered one. |
| `SlotNames.PoolIsDistinct` | core/internal/engine/slotnames.go:14-20 | The pool has twenty names, all different. |
| `SlotNames.LogDistinct` | core/internal/store/slots.go:92-110 | A log satisfying the invariant has no name twice. |
| `SlotNames.NeverReused` | core/internal/engine/slotnames.go:41-70 | Over any automatic names, calibrations, renames and removals the invariant holds; a name is handed out again only if its earlier log append failed or was never made. |
| `SlotNames.HandedAgainExactlyWhen` | core/internal/engine/slotnames.go:25-39 | The next name was handed out before if and only if an assignment the log missed bears it. |
| `SlotNames.OneSlot` | core/internal/store/slots.go:70-90 | Renaming or removing by row id touches exactly the slot that has it. |
| `SlotNames.FailedAppendReuses` | core/internal/engine/slotnames.go:61-63 | That exception happens: after a failed append a removed reader's name is handed out again. |
| `SlotNames.SlotStore.AutoNameSlot` | core/internal/engine/slotnames.go:44-70 | Names a slot as one step of those sequences, unlogged if the slot could not be read back, and keeps the invariant; that slot is the only one changed, and if nothing fails the name is logged. |
| `SlotNames.SlotStore.Upsert` | core/internal/store/slots.go:30-40 | Creates the slot under an id no other slot has, or renames the one that is there; changes no other slot and keeps the invariant. |
| `SlotNames.SlotStore.Rename` | core/internal/store/slots.go:70-79 | Is the renaming step of those sequences, keeps the invariant, and changes exactly the one slot with that id; if there is none, nothing changes and it says so. |
| `SlotNames.SlotStore.Delete` | core/internal/store/slots.go:81-90 | Is the removing step of those sequences, keeps the invariant, and removes exactly the one slot with that id; if there is none, nothing changes and it says so. |
| `SlotNames.SlotStore.UsedAliases` | core/internal/store/slots.go:130-149 | Every alias in the log, and how many entries it has. |
| `EditThrottle.EditsComeInBetween` | core/internal/notify/notify.go:157-205 | An edit goes to a delivered start message, and nothing ended or restarted the job in between. |
| `EditThrottle.StartedIsKnown` | core/internal/notify/notify.go:157-162 | A job that was started and not ended since has a message state. |
| `EditThrottle.DeliveredIsKnown` | core/internal/notify/notify.go:163-176 | Once its start message is delivered, and until it ends or starts again, that message is the one to edit. |
| `EditThrottle.NeverStale` | core/internal/notify/notify.go:231-248 | After each observation of a delivered job's progress, the message was delivered or given an edit less than 30 s ago, and its last edit shows less than ten percent less. |
| `EditThrottle.PercentIs` | core/internal/notify/notify.go:239-242 | The percentage is the whole number of hundredths that fit. |
| `EditThrottle.EveryMsgPaid` | core/internal/notify/notify.go:231-248 | The potential argument: every edit so far was paid for by elapsed time or by percent gained. |
| `EditThrottle.EditBound` | core/internal/notify/notify.go:231-248 | Per job, time-triggered edits take 30 s each; percent-triggered ones number at most ten plus ten per time-triggered one, even if progress falls; with rising progress all edits number at most ten plus one per 30 s. |
| `EditThrottle.EditsAreCounted` | core/internal/notify/notify.go:231-248 | The counts bounded above count each edit sent, and nothing else. |
| `EditThrottle.Dispatcher.ShouldEdit` | core/internal/notify/notify.go:231-248 | Allows the edit exactly if the message was delivered and ten percent or 30 s have passed, and then remembers it. |
| `EditThrottle.Dispatcher.TakeState` | core/internal/notify/notify.go:250-259 | Forgets the job and yields its message, or 0. |
| `EventBus.NoSendOnClosed` | core/internal/bus/bus.go:75-106 | In every interleaving of Publish and Close no send hits a closed channel. |
| `EventBus.BusConserves` | core/internal/bus/bus.go:84-106 | What a subscriber received followed by its buffer is the accepted offers in order, within the buffer size, the others being counted as dropped; the events offered, with those about to be, are as a multiset the matching events that the log says were published while it was subscribed, none twice. |
| `EventBus.PublishedIsHeard` | core/internal/bus/bus.go:87-106 | What the bus noted as published for a subscriber is what the log alone says: each matching Publish while it was subscribed, in order, under its number. |
| `EventBus.HeardIs` | core/internal/bus/bus.go:87-106 | That is: exactly the events published at a moment when it was subscribed to their topic. |
| `EventBus.AcceptedExactlyWhen` | core/internal/bus/bus.go:94-105 | An event offered is accepted exactly if fewer accepted events than the buffer holds are still untaken, or an unbuffered subscriber waits; otherwise it is counted as dropped. |
| `EventBus.PublishedAreEvents` | core/internal/bus/bus.go:87-106 | What counts as published was published, under its number. |
| `EventBus.OfferedOnce` | core/internal/bus/bus.go:94-105 | No event is offered to a subscriber twice. |
| `EventBus.OffersFollowPublishing` | core/internal/bus/bus.go:87-106 | No event is offered ahead of one whose Publish was over before its own began. |
| `EventBus.NoOverlapInOrder` | core/internal/bus/bus.go:87-106 | If no two publishes overlap, offers, hence deliveries, come in the order of publishing. |
| `EventBus.Subscription.Offer` | core/internal/bus/bus.go:94-105 | A matching event is buffered, or counted as dropped if the buffer is full; others are ignored. |
| `EventBus.Bus.Publish` | core/internal/bus/bus.go:87-106 | Offers the event once to every subscription, and changes nothing else; what each was offered stays what was published, in order. |
| `EventBus.Bus.Close` | core/internal/bus/bus.go:75-82 | Unregisters and closes the first time; afterwards does nothing. |
| `LogRing.Ring.Append` | core/internal/logging/logging.go:41-49 | The history grows by the record, and the circular buffer keeps representing its last records. |
| `LogRing.AtLeastIs` | core/internal/logging/logging.go:68-75 | The level filter keeps the records of at least that level, each once, in order. |
| `LogRing.LevelsInOrder` | core/internal/logging/logging.go:82-93 | Debug, info, warn and error, in this order; any other name is info. |
| `LogRing.Ring.Snapshot` | core/internal/logging/logging.go:51-80 | For every history, capacity (1 included), limit and level: the last `limit` of the level-filtered last `capacity` records, oldest first. |

## Left out

* Windows volumes, readers, eject and services; the web interface, its handlers and server-sent events; Telegram, message texts and the PNG report; the updater; settings and their seeding: calls into the outside, formatting, or one-branch code. What the platform answers is an arbitrary input.
* SQL, drivers and migrations: the tables are abstract (rows by id, an append-only index, slots with a log).
* XXH3: an arbitrary function of the bytes. Template expansion, time zones and media classes: the destination directory is an arbitrary function of the file's timestamp.
* ETA and throughput, and the message retry queue, which gives up order: display only.
* Which names an Lstat finds: file names are compared exactly, so a case-insensitive file system is not modelled, and an Lstat failing for a reason other than absence is not told apart from a taken name. Lower-casing is for ASCII.
* A tmp file that cannot be opened leaves a gap in the sequence numbers, which the model does not show.
* Overflow of 64-bit byte counters.
* Directories the boot sweep cannot read keep their tmp files; in the model that is a removal that failed.
- ManagerTheorems.RunKeeps: table writes in the manager's own state machine always succeed; a failed status write is logged or ignored by the source. A runner's status write and the event right after it are one action, cancelling a context is one with the lookup that found it, and the event loop may go on after shutdown; context trees are reduced to the first cause.
- ManagerTheorems.OneOwner: says nothing about how many jobs a volume has; `ManagerVolumes.TwoExactlyWhen` does.
- ManagerVolumes.TwoExactlyWhen: counts a job as there while its row is open or a goroutine, the loop, the retry list or a Cancel call still has it.
- Resume.OneLogBound: takes at most one run per job; by `ManagerTheorems.LifeIsGrammar` a job's other runs parked before they copied.
- ManagerTheorems.BrokenExactlyWhen: speaks of jobs that are settled, since before that the conflicting write may be still to come, and of jobs not given up at shutdown, where it may never come.
- CutRuns.CutAnywhere: the cut is anywhere in an execution that would have come to its end; the job's own code between two steps of the protocol changes nothing on the destination.
- Counterexamples.CancelledJobParks: in the manager's state machine a run may park whatever the card holds; `IngestRun.Run` says which runs do.
- IngestRun.Run: where a call may fail, the model does not say whether it does, except that `smooth` excludes it; a context is looked at when the source asks for its error or queries with it; a query that fails on its own at the lookup is a destination that is not there.
- EditThrottle.EditBound: times are those of the calls, non-decreasing, and progress lies between 0 and 100 percent.
- VolumeWatcher.AttachesExactlyWhen: a poll that fails to list is a poll in which nothing happens, also to a volume that was out in the meantime.
