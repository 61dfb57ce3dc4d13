# Mintarr, modelled in Dafny

Mintarr stands between Lidarr and its download sources: it takes a grab, downloads or
watches it, decides whether the files are good enough, and imports them. This project
models the parts of Mintarr whose promises have to survive crashes, lost writes,
cancels and races, and the decision rules and parsers those promises rest on, and
proves what they guarantee. `dafny verify dfyconfig.toml` checks all of it.

| files | what they model |
|---|---|
| `MemberNames`, `RestorePlan`, `Backup`, `ZipRules` | zip member names, validation of a restore zip, the effect of applying it, and the backup it undoes |
| `RestoreProtocol`, `RestoreBoot`, `RestoreSideFiles` | staging, boot-time apply and the worker gate as a machine of single durable operations, the boot code that refines it, and what is left of the database's side files |
| `JobQueue`, `QueueRuns`, `QueueTheorems`, `QueueLeases`, `QueueKeys`, `QueueEnds`, `Worker`, `AddUrl` | the jobs table, all its actors interleaved, what holds over every run, leases, dedupe keys after a restart, when an end is final, the worker's code, and the addurl requests on top |
| `ParallelScan`, `ScanRuns` | the bounded pool of a library scan, and scan runs with their jobs across restarts |
| `BackendLane` | durable backend rows and the queue shown to Lidarr |
| `Comparison`, `Decision`, `Records` | evidence comparison, the decision stages, and the life of a verification record |
| `ReleaseIdentity`, `AccurateRip`, `CueToc`, `Toc` | release scoring, the AccurateRip body parser, the cue parser and TOC reconstruction |

Protocols are machines: a state, an `Action`, a `Step`, and a `Run` over any sequence
of actions, with a flag for every read or write that can fail. Code that updates
fields or loops is a class or a method proved against the same functions.

Facts the proofs brought out, each stated as a lemma:

- A boot over an unfinished restore starts the workers exactly when its marker cannot
  be read (`BootOverUnfinished`): an unreadable marker counts as a discardable one.
- The safety backup is not validated when it is taken; one directory in the sidecar
  area that is not a job id makes it unacceptable for ever (`StraySidecarSpoilsRecovery`).
- A failed removal of the write-ahead log goes unnoticed: the workers start on the
  restored database with the old log beside it (`SideFileSurvivesIff`, `StaleLogSurvives`).
- A job that is `cancelling` when the process dies is never recovered. Its dedupe key is
  blocked for good (`NewRowIffNoCancelling`), and for a scan no later scan is ever accepted
  (`NewScanIffNotStuck`). The docstring at app/state_db.py:2306-2315 says
  that reconciling lets a fresh scan start.
- A failed read of the cancel flag counts as "not cancelled" (`FlagReadDecides`).
- Recovery reads a limit of 0 attempts as 3 (`BoundIsExact`).
- When the confirming read of an addurl request fails, the request answers with a jid
  that no row was made for and leaves its projection behind (`ConfirmingReadDecides`).
- A backend row can stay `importing` with no worker job if both the enqueue and the
  write that reverts it fail (`HandOffOverPass`).
- A cancel whose read of the backend row fails takes the job for one outside the lane and
  hides it. The same request asks the worker job to stop; if the import is past its last
  checkpoint, or that request is lost as well, it goes on and is mirrored as imported
  (`CancelStopsImportIff`, `HiddenYetImported`).
- A blocked execution can be mirrored as imported if a retry or promotion, begun on an
  earlier version of the record, rewrites the queue entry first (`BlockedIsMirroredIff`).
- The measured comparison never rescues a review that the audio rules asked for; the
  branch that does so can only undo a demotion by the CD-rip stage
  (`MeasuredRescuesOnlyRips`), although app/server.py:3768-3779 describes it as a rescue
  of borderline reviews.
- The record index comes to say `BLOCK` and imported if and only if an ingest is mirrored
  as imported while the sidecar is missing (`IndexViolatedIff`). It takes a crash between a
  block and its mirror, a lost sidecar and a second execution that ends before it verifies
  anything (`IndexCanBeSpoiled`): an ingest that ends early, for instance without a Lidarr
  key (app/server.py:5187-5190), counts as imported.
- A job that recovery failed is completed after all if its executor is still running
  (`OverwrittenEnd`, `EndIsFinalIff`).
- Two member names can stand for one target (`AliasedNames`).

## Model

| member | source | states |
|---|---|---|
| `MemberNames.ClassifiedIsContained` | app/restore.py:703-765 | every member name that is accepted, whatever characters it holds, stands for a file inside one of the named targets |
| `MemberNames.WrittenNameReadBack` | app/restore.py:703-765 | a name the backup writes is read back as the file it was written for if and only if its sidecar directory is a job id and its archive file a proper JSON name |
| `MemberNames.TakenBackIff` | app/restore.py:703-749 | which backed-up files are taken back, spelled out: databases and logs, sidecars under twelve hex digits, archive files with a name before `.json` |
| `MemberNames.StandsForIff` | app/restore.py:752-757 | exactly which names stand for a target: relative, without `..` or a final slash, and its written name once empty and `.` components are left out |
| `MemberNames.MemberNamesSpelled` | app/backup.py:64-82 | the names a backup writes, letter by letter |
| `MemberNames.MemberNameInjective` | app/backup.py:54-84 | different files get different member names |
| `MemberNames.AliasedNames` | app/restore.py:132-136 | for every target there is a second, different name that stands for it too, so duplicate names do not rule out duplicate targets |
| `RestorePlan.AcceptedIffAcceptable` | app/restore.py:106-162 | a zip is accepted if and only if no member has a fault, and then the plan lists every member in order with its target, size and the running total |
| `RestorePlan.ValidateRestoreZip` | app/restore.py:106-162 | the one pass with running total and set of names decides as the member-by-member judgement does, on every zip, readable or not |
| `ZipRules.AcceptedByRules` | app/restore.py:106-162 | a zip is accepted if and only if limits hold, no two names are equal, and every member is a regular file of allowed size with a known name and readable content of its kind; the plan lists them |
| `ZipRules.AcceptedApplied` | app/restore.py:573-604 | applying an accepted zip to any disk gives a target the bytes of its last member |
| `ZipRules.TotalAddsUp` | app/restore.py:124-140 | the running total is the sum of the sizes |
| `RestorePlan.AppliedContent` | app/restore.py:573-604 | applying a plan to any disk gives each named target its last entry's content, removes the database side files exactly when a database is in the plan, and changes no other path |
| `Backup.BuildBackupZip` | app/backup.py:54-84 | every database, sidecar, log and `.json` archive file is one member, under its own name, with its own bytes and their length, the database with its log folded in; nothing else is |
| `Backup.BackupAcceptedIff` | app/restore.py:106-162 | a backup passes validation if and only if job-id sidecar directories, parseable content and the limits hold on the disk it was taken of |
| `Backup.RoundTrip` | app/restore.py:573-604 | an accepted backup applied to any other disk puts back the very bytes of every file, removes the side files of a restored database, and touches nothing else |
| `Backup.StrayDirectorySpoilsBackup` | app/backup.py:62-70 | one sidecar directory that is no job id makes the whole backup unacceptable under any limits |
| `RestoreProtocol.RunInv` | app/restore.py:426-570 | the protocol's invariant holds after any sequence of steps, crashes and failed writes |
| `RestoreProtocol.WorkersSeeNoHalfRestore` | app/server.py:7742-7787 | in every run workers are started only by a boot that left every file as it found it, or that gave every target of an accepted plan its last entry, with every side file and every other path accounted for |
| `RestoreProtocol.StagingIsPending` | app/restore.py:292-366 | a staging request leaves a staged marker and its zip if and only if the zip is accepted and the write succeeds, and a cancel takes the marker away |
| `RestoreProtocol.PendingIsKept` | app/restore.py:275-289 | while a marker is there nothing new is staged, and an interrupted apply cannot be cancelled |
| `RestoreProtocol.RunClosed` | app/restore.py:426-570 | in every run with faithful marker reads an apply that has not finished keeps its marker, and a process that is up meanwhile keeps its workers off |
| `RestoreProtocol.CutShortForever` | app/restore.py:453-466 | once an apply is cut short, no boots, staging, cancels, flag changes or file changes ever start the workers or touch marker or safety backup |
| `RestoreProtocol.StoppingCutsShort` | app/restore.py:543-558 | a crash or a failed write at any file operation leaves the protocol cut short |
| `RestoreProtocol.BootOverUnfinished` | app/restore.py:400-407 | over an unfinished apply a boot starts the workers if and only if the marker cannot be read |
| `RestoreProtocol.PartlyReplaced` | app/restore.py:573-593 | while files are replaced, every path the plan does not name is as it was |
| `RestoreProtocol.SafetyBackupRecovers` | app/restore.py:512-558 | in every reachable state with marker `applying` the safety backup is a backup of the files as they were, and applying it to whatever is on disk brings each one back |
| `RestoreProtocol.StraySidecarSpoilsRecovery` | app/restore.py:622-636 | if a stray sidecar directory was there, that safety backup is never accepted |
| `RestoreSideFiles.SideFileSurvivesIff` | app/restore.py:573-593 | over every run that starts workers on a restored disk, a write-ahead log or shared-memory file is still there if and only if it was there at boot and the plan has no database or every removal of it failed |
| `RestoreSideFiles.StaleLogSurvives` | app/restore.py:573-593 | from any initial host with a staged database the boot starts the workers on it, with the old log beside it if and only if there was one and its removal failed |
| `RestoreBoot.Host.ApplyPendingRestore` | app/restore.py:426-570 | what the outside decides fixes the boot's machine steps; the workers stay off if and only if an interrupted apply is read, in which case nothing is touched, or a staged and accepted zip is applied and some write fails |
| `RestoreBoot.BootIsFaithful` | app/restore.py:446-451 | the steps of a boot count as a faithful read of the marker if and only if the marker could be read, so the theorems over runs apply to it |
| `RestoreBoot.Host.ApplyEntries` | app/restore.py:573-593 | the two loops perform the plan's operations in order and fail if and only if some write fails, right after the first such write |
| `JobQueue.JobTable.FindActiveByDedupe` | app/state_db.py:1640-1659 | finds the newest active row of a key, or none if there is none |
| `JobQueue.JobTable.Enqueue` | app/state_db.py:1178-1232 | adds a queued row with the request's own fields exactly when the request is complete and its key has no active row, and else hands out that row |
| `JobQueue.JobTable.DequeueNext` | app/state_db.py:1235-1302 | claims an eligible row that is first by priority and age, with lease, owner and one more attempt, or nothing if none is eligible |
| `JobQueue.JobTable.Heartbeat` | app/state_db.py:1305-1319 | extends the lease of a running row only |
| `JobQueue.JobTable.ScheduleRetry` | app/state_db.py:1378-1429 | requeues a held row exactly when it has attempts left and no cancel was asked |
| `JobQueue.JobTable.RequestCancel` | app/state_db.py:1446-1464 | sets the flag of every active row, moves a running one to `cancelling`, and changes nothing else |
| `JobQueue.JobTable.RecoverStale` | app/state_db.py:1531-1604 | the loop treats every stale row once and no other, and counts them |
| `QueueRuns.RunRows` | app/state_db.py:1178-1604 | over any run rows keep their identity, attempts never fall, the cancel flag is never cleared, terminal never becomes active; queued rows have no lease and no owner and an attempt left, running and cancelling rows have both |
| `QueueTheorems.StartsBounded` | app/worker.py:158-222 | in every run an executor starts at most as often as its row was claimed, which is at most `max_attempts` when that is at least 1 |
| `QueueTheorems.BoundIsExact` | app/state_db.py:1570-1597 | a boot queues a running row again if and only if it was claimed less often than the bound |
| `QueueTheorems.ClaimsWithinBudget` | app/state_db.py:1280-1299 | each claim uses one unit of a finite budget that nothing gives back |
| `QueueTheorems.CancelIsFinal` | app/worker.py:177-194 | once the flag is set the executor never starts again, whoever claims the row and however often it is requeued, if reads of the flag succeed |
| `QueueTheorems.AskedIsFinal` | app/state_db.py:1446-1464 | in any reachable state, once cancelling an active row was asked for, its executor never starts again while flag reads succeed |
| `QueueTheorems.RowMoves` | app/state_db.py:1235-1604 | every change of a row's state in any step is a claim of a due row, a cancel request, recovery of a stale row, or a step of a worker that holds it |
| `QueueTheorems.RetriedIff` | app/worker.py:143-155 | a failed execution is tried again if and only if the error is transient, the kind is retried, an attempt is left and no cancel is seen |
| `QueueTheorems.FlagReadDecides` | app/state_db.py:1467-1479 | with the flag set, a held job's executor starts if and only if the read fails |
| `QueueLeases.LeaseProtects` | app/state_db.py:1305-1316 | from a claim on, over every run in which each periodic recovery comes at most a lease after the row's latest heartbeat, recovery never takes the row from its owner, whatever is cancelled, crashes or happens to other rows |
| `QueueLeases.RecoveryTakesIff` | app/state_db.py:1531-1568 | with leases of one length, recovery takes a running row if and only if it comes more than that length after the latest heartbeat |
| `QueueTheorems.BootRecovery` | app/worker.py:250-264 | after boot recovery no row is running; each that was is queued if and only if attempts remain, else failed; other rows are untouched |
| `QueueTheorems.DedupeHolds` | app/state_db.py:1198-1229 | over every interleaving a non-empty key used through `enqueue_job` has at most one active row |
| `QueueTheorems.OrphanForever` | app/state_db.py:1552-1568 | a cancelling row that nobody holds stays so in every run |
| `QueueKeys.OrphanBlocksKey` | app/state_db.py:1198-1229 | every later request with its key is handed the dead row |
| `QueueKeys.NewRowIffNoCancelling` | app/state_db.py:1552-1568 | in any reachable state, after a crash and boot recovery, some continuation gives a key a new row if and only if the crash left no cancelling row with that key |
| `QueueEnds.EndIsFinalIff` | app/state_db.py:1337-1375 | in any state an ended row is left alone by every continuation if and only if no worker that holds it has yet to start or return, or is about to record another end than the row has |
| `QueueEnds.OverwrittenEnd` | app/state_db.py:1337-1375 | the witness from the empty queue: recovery fails a job, the executor that still runs it completes it, all else in the row unchanged |
| `Worker.ExecuteJob` | app/worker.py:158-222 | what the outside decides fixes the final row and the worker's own machine steps that lead to it; no other row or worker changes, and a start is recorded exactly when the executor ran |
| `AddUrl.AnswersNameTheRow` | app/server.py:1619-1681 | over every interleaving a request that was given a row answers with that row's jid, the row carries its key, and a request that lost leaves no projection |
| `AddUrl.LoneRequest` | app/server.py:1631-1681 | a request left alone is given a queued row of its own with priority 5 and 3 attempts, answers with its own jid and keeps its projection |
| `AddUrl.RepeatedRequest` | app/server.py:1619-1630 | a request whose key has an active row answers with that row's jid and adds nothing |
| `AddUrl.FailedPut` | app/server.py:1683-1700 | a request that cannot be enqueued is refused and withdraws its projection, unless it has the direct path |
| `AddUrl.ConfirmingReadDecides` | app/server.py:1661-1681 | a request that lost its row answers rightly and withdraws its projection if and only if its confirming read succeeds |
| `ParallelScan.ExecuteParallelScanItems` | app/library_scan_worker.py:533-603 | for every list, pool size, completion order and outcome: counters add up, everything taken is counted or pending, the pool is never exceeded, items are submitted once, in order and after a cancel check; a normal end has counted every item under its own outcome; the call ends otherwise only at a cancelled check, an item whose ids do not convert, or with something pending and no waits left |
| `ParallelScan.CountOne` | app/library_scan_worker.py:524-530 | counting one more outcome keeps every counter equal to the number of items with that outcome |
| `ScanRuns.OneActiveRun` | app/state_db.py:2208-2284 | over every run of requests, cancels, scans, crashes and lost writes at most one scan run is active |
| `ScanRuns.RestartReconciles` | app/state_db.py:2305-2353 | after a restart an active run whose job was running or had ended is failed, other runs are as they were, and every active run's job is alive |
| `ScanRuns.NewScanIffNotStuck` | app/library_scan_worker.py:754-785 | after any restart a new scan can ever be accepted if and only if no active run had a cancelling job |
| `ScanRuns.StuckForever` | app/state_db.py:2226-2240 | such a run stays active in every continuation and no run is ever added |
| `ScanRuns.ScanEnds` | app/library_scan_worker.py:629-751 | with every call succeeding the run and its job end in the same state: cancelled if a cancel was seen or noticed, failed or completed as the scan did |
| `ScanRuns.ScanCancelIsFinal` | app/state_db.py:2477-2505 | a cancelled scan that is not under way never starts in any continuation with good flag reads |
| `ScanRuns.BeatHoldsOff` | app/library_scan_worker.py:504-521 | a heartbeat keeps the scan's job from recovery for the lease it asks for |
| `ScanRuns.ScanRow` | app/state_db.py:2251-2275 | the row of a scan job: kind, key, priority 50 and one attempt |
| `ScanRuns.ScanTable.EnqueueLibraryScan` | app/state_db.py:2208-2284 | returns the one active run, adding it only if there was none |
| `ScanRuns.ScanTable.ReconcileOrphaned` | app/state_db.py:2305-2353 | fails exactly the active runs whose job is terminal, after which every active run has a live job |
| `BackendLane.ReconcileInStep` | app/server.py:1237-1344 | for any rows and any failing writes, by the backend's report: neither row nor projection changes, exactly when the row is not polled or a needed write is lost, or the row has the reported state or is handed over and its projection shows just that |
| `BackendLane.ReviewIsHeld` | app/server.py:1259-1265 | a pass leaves a review row alone and puts its queue entry on hold while its record is open or unreadable |
| `BackendLane.PassAt` | app/server.py:1237-1344 | over a whole pass each listed row is treated as by its own turn and every other row and projection is untouched |
| `BackendLane.HandOffOverPass` | app/server.py:1340-1408 | over a whole pass, by the report: exactly when a row is handed over, and exactly when it comes out importing without a worker job |
| `BackendLane.TerminalForever` | app/server.py:2351-2372 | over every run of handlers a terminal row keeps its very state |
| `BackendLane.CancelIsFinal` | app/server.py:4980-5037 | a cancel ends the row if and only if it was read and written, or had ended before, and then for good; the job is hidden while its row lives on exactly when a live row could not be read |
| `BackendLane.DiscardIsFinal` | app/server.py:5040-5058 | a discard ends a live row if and only if its read and write succeed, for good, and touches nothing else |
| `BackendLane.CancelStopsImportIff` | app/server.py:5061-5099 | a cancel during an import rules out a later mirror as imported, over every continuation, if and only if its read and its write succeed |
| `BackendLane.HiddenYetImported` | app/server.py:5061-5099 | the failing input: the read fails and the job is hidden, and the ingest is mirrored as imported if and only if the pipeline ends without heeding the stop that the same request asked of its worker job |
| `BackendLane.ImportedByMirror` | app/server.py:2351-2372 | over every run a row that became imported was importing when its own ingest was mirrored, neither held nor failed |
| `BackendLane.Lane.ReconcileBackendJobs` | app/server.py:1237-1344 | the loop is one machine step, and every polled row whose write persists is in step |
| `BackendLane.Lane.StartBackendIngest` | app/server.py:1347-1408 | the durable-first code is the hand-off above |
| `BackendLane.Lane.MirrorOutcome` | app/server.py:2351-2372 | the mirror code is the machine's mirror step |
| `BackendLane.Lane.CancelBackendJob` | app/server.py:4980-5099 | the cancel code is the machine's cancel step and answers "hide" exactly for a terminal row |
| `BackendLane.Lane.MarkDiscarded` | app/server.py:5040-5058 | the discard mirror is the machine's discard step |
| `BackendLane.Lane.QueueListing` | app/server.py:1491-1518 | no jid twice; a jid is listed if and only if its entry is not hidden, looks active or held and its row is not known to be terminal, or it is a listed review whose record is open |
| `Comparison.UpgradeSurvives` | app/library_comparison.py:138-241 | an upgrade stays one under every growth of evidence and under new rows |
| `Comparison.AbstainsExactly` | app/library_comparison.py:138-241 | with both axes considered a verdict other than review is given if and only if every complete set of answers to the open questions leads to it |
| `Comparison.StableIff` | app/library_comparison.py:138-241 | under any policy a verdict other than review is stable under resolution if and only if it is an upgrade, the candidate is invalid, or no measured row has an open integrity question |
| `Comparison.SettledIsLexicographic` | app/library_comparison.py:138-241 | on settled evidence the verdict is the lexicographic order of validity, authenticity, tier and completeness |
| `Comparison.TierOrder` | app/library_comparison.py:14-31 | one file ranks above another exactly by lossless, then 24 bits, then more than 48 kHz, missing values being CD quality |
| `Comparison.JudgedByFormat` | app/library_comparison.py:138-241 | against intact and genuine tracks of one format a usable candidate is judged by the formats, and by completeness between equals |
| `Comparison.HiResAndCd` | app/library_comparison.py:219-220 | hi-res beats CD, and CD does not beat hi-res |
| `Comparison.QualityMeans` | app/library_comparison.py:65-117 | every field of the rollup in terms of the rows |
| `Comparison.UnusableCandidate` | app/library_comparison.py:180-212 | an invalid or inauthentic candidate never wins; one of unknown tier wins only by repairing a defect |
| `Comparison.MinTier` | app/library_comparison.py:65-92 | the album tier is attained by a measured row and is no better than any |
| `Comparison.ViewIsSafe` | app/server.py:3878-3899 | the freshness view yields coherent rows, and an upgrade decided on it is one on the stored evidence |
| `Comparison.ViewIs` | app/server.py:3878-3899 | the view keeps each heavy tier by its own freshness, opens it again otherwise, and keeps everything else |
| `Decision.ScoresAmountToTable` | app/verification.py:253-373 | for every download the scores, caps and thresholds amount to a table over verdicts |
| `Decision.BlockIff` | app/server.py:4223-4265 | under all flags the final decision is a block if and only if the audio decision was one or the album is wrong |
| `Decision.BlockedBecause` | app/verification.py:308-373 | every ground for a block, in terms of the download alone |
| `Decision.AcceptIff` | app/server.py:4223-4265 | a full accept comes only from the audio decision, for a known release, exactly when no stage objects |
| `Decision.ProvisionalIff` | app/server.py:4223-4265 | exactly when a download is accepted provisionally |
| `Decision.CandidateMeans` | app/server.py:3727-3765 | what is compared for a candidate: gates, verdict, completeness and its worst file |
| `Decision.UpgradeNeedsAuthentic` | app/server.py:3727-3765 | the measured comparison says upgrade only of valid files with an authentic verdict |
| `Decision.MeasuredRescuesOnlyRips` | app/server.py:3768-3791 | the measured stage lifts a review if and only if the CD-rip stage had just demoted a full accept and there is a measured release that the candidate improves on |
| `Decision.FakesNeedARip` | app/server.py:3691-3720 | a download with signs of a fake is imported automatically if and only if an accurate rip rescued it and no gate, identity, count or measured release stands against it, and then only provisionally |
| `Records.NoBlockedImport` | app/server.py:5345-5489 | over every run of handlers on any versions no record says `BLOCK` and imported; handlers change a decision only by promoting a pending review, and never lose an import |
| `Records.PromoteHandler` | app/server.py:6431-6501 | which records a promotion acts on, what it makes of them and puts in the queue |
| `Records.RetryHandler` | app/server.py:6504-6549 | the same for a retry |
| `Records.ReconcileHandler` | app/server.py:4726-4771 | when a pending import is settled as imported or failed |
| `Records.ClosingHandlers` | app/server.py:7556-7610 | which records discard and expiry close |
| `Records.FinalizeHandler` | app/server.py:2375-2413 | what finalizing does with a sidecar, without one, and with one that is neither pending nor imported |
| `Records.VerifyHandler` | app/server.py:5345-5571 | the record, index row and queue entry that a verification leaves |
| `Records.VerifiedImport` | app/server.py:5345-5571 | a verification that ends imported passed every gate, and brought a gain in quality if the validator suspected a fake |
| `Records.IndexViolatedIff` | app/server.py:2375-2413 | after a clean history a step makes the index say `BLOCK` and imported if and only if it mirrors an ingest as imported while the sidecar is missing and the index row says `BLOCK` |
| `Records.BlockedIsMirroredIff` | app/server.py:6504-6549 | an execution that verified the download as blocked can be mirrored as imported before the ingest runs again if and only if an earlier version of the record is left that a retry, promotion or reconciliation can still bring to an import |
| `Records.IndexCanBeSpoiled` | app/server.py:2429-2446 | the run that gets there: block recorded, crash before the mirror, sidecar lost, ingest executed again without a verification |
| `ReleaseIdentity.Score` | app/release_family.py:127-142 | every score lies between 0 and 100 |
| `ReleaseIdentity.Thresholds` | app/release_family.py:174-179 | the default thresholds are equivalent to conditions on whole numbers of matched titles and track difference |
| `ReleaseIdentity.PositiveIdentity` | app/release_family.py:246-261 | a same-family result has titles on both sides, two thirds of them matched and at most 5 tracks of difference; same release eleven twelfths and at most 1 |
| `ReleaseIdentity.SortHead` | app/release_family.py:225-246 | the head of the stable descending sort is the first release with the greatest score |
| `ReleaseIdentity.EvaluateReleaseIdentity` | app/release_family.py:174-267 | wrong album if and only if some identifier contradicts, insufficient if and only if there is nothing to compare, else the first best release decides with the greatest score as confidence |
| `AccurateRip.BodyRoundTrip` | app/cd_lookup.py:69-93 | any list of chunks followed by any bytes that start no whole chunk is read back exactly |
| `AccurateRip.ChunkLayout` | app/cd_lookup.py:70-86 | where count, little-endian ids and confidences lie in a chunk |
| `AccurateRip.ParseAccurateRip` | app/cd_lookup.py:50-103 | on any bytes the loop ends, and finds exactly the chunks of the disc: their number, each track's greatest confidence, the greatest of all, or nothing found if there are none |
| `AccurateRip.LookupOfSubmissions` | app/cd_lookup.py:50-103 | what is found in a written body is what was submitted for the disc: how often, and each track's greatest confidence |
| `CueToc.BlocksPartition` | app/cd_toc.py:54-94 | preamble and track blocks make up the sheet, and each block has one TRACK line, its first |
| `CueToc.RegularMeans` | app/cd_toc.py:54-94 | what makes a sheet regular, line by line |
| `CueToc.ParseCueOffsets` | app/cd_toc.py:54-94 | offsets come back if and only if the sheet is regular, and then one for each track in order: the only INDEX 01 of its block, at 75 frames a second and 60 seconds a minute |
| `Toc.BuildTocFromTrackLengths` | app/cd_toc.py:42-51 | a TOC exactly for non-empty positive lengths, the only one with those lengths, its lead-out their sum |
| `Toc.TocFromPerTrack` | app/cd_toc.py:139-151 | a TOC exactly for frame-aligned files, each track as long as its file and the lead-out times 588 all the samples |
| `Toc.TocFromSingleImage` | app/cd_toc.py:154-175 | a TOC exactly for an aligned image with a regular sheet that starts at 0, increases and ends before the lead-out |
| `Toc.ReconstructToc` | app/cd_toc.py:113-136 | whatever comes back starts at 0, strictly increases, ends before the lead-out, has the lengths of the files or the offsets of the sheet, and its lead-out times 588 is all the audio |

## Left out

- Flask routes, HTML, Newznab, the Lidarr, SAB and qBittorrent clients, ffprobe, flac and the detective service: their answers are parameters.
- SQLite, JSON and zip encoding: which bytes are acceptable, and the image an online backup takes, are parameters of the model; rows are values, a row's id is its position, and each database call is atomic.
- Clocks are integers passed in, and delays, back-off lists, progress messages and result texts are not kept.
- Regular expressions and Unicode: cue lines come classified, titles normalised, error texts as transient or not.
- Restore: the status file, the copying of an upload into the staging directory and the removal of its leftovers; targets of different kinds are taken to be different files; replace and unlink are atomic and durable in order.
- Queue: database failures of API requests are requests without effect; a library-scan key is not covered by `DedupeHolds`, since scans are inserted without it and have their own lemma, `OneActiveRun`.
- `Worker.ExecuteJob`: one execution without interference; that other actors step in between is the subject of the lemmas over `Run`.
- Scan: the sequential loop of the spectral mode, the item ledger, and pausing for imports.
- Backend lane: handlers are atomic steps. `update_backend_job` has no guard on the state, so a cancel that came between the read and the write of a mirror would be overwritten; titles, target albums, holds and the backend's own transfer are not kept.
- `BackendLane.Lane.QueueListing`: lists jids, not the fields of a slot.
- Comparison: the advisory md5 and tag fields, and the 0/1 form in which the store keeps `integrity_ok`; rows are as the rollup gets them.
- Decision: sensors, explanations and notifications; factors 1.2 and 1.5 are compared in whole numbers, scores in exact arithmetic.
- Records: one download; files are values, every version kept; a verification and its queue entry change in one step; where a sidecar lies on disk and the dashboard's status names are not modelled; V2 verification is enabled throughout, since without it no record is written.
- `ReleaseIdentity.EvaluateReleaseIdentity`: fixed at the default thresholds; the explanation texts are not kept.
- The library-evidence fingerprint, caches, metrics, connectors, source adapters and scripts would only add easy members.
