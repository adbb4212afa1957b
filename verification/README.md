# Verified model of the image studio's orchestration protocols

The image studio sits between three things that cannot be undone: a ComfyUI `/prompt` call that is not idempotent, a
RunPod DELETE that ends the Pod, and a remote copy of its own SQLite database. This project models the parts of the
repository that decide when each may happen, and proves what their documentation and tests promise: as steps of a
protocol with every interleaving, crash, lost answer and failed write, and as the loops and objects that take those steps.

Verify everything with `dafny verify dfyconfig.toml` (Dafny 4.11).

## How the model is built

Each protocol has a module of pure step functions (`Enabled`, `Apply`, `Run`) in which one event is one lock section, one
database transaction or one remote call, and theorems over all runs. Where the source is an object that changes its
fields, a class does the same, each method proved to be the step it stands for or to satisfy a specification function.
What other threads and the outside world do during an `await` is a parameter of the method.

| modules | what they model |
|---|---|
| `StateSyncSteps`, `StateSyncTheorems`, `StateSyncService` | the state backup: dirty and backed-up versions, debounce timer and tokens, backup lock, three ordered uploads, unchanged-hash shortcut, shutdown |
| `StatePointer`, `StateRestore` | `latest.json` as JSON and POSIX path text, the fail-closed restore, and the remote as named files |
| `PodLifecycle`, `PodLifecycleService` | the eight-state session of a Pod, admission, draining, readiness, DELETE |
| `SelfTermination` | all of the above together with gated writes, active work and any number of drain sequences |
| `AutoTerminate` | the polls and the grace period in front of an automatic drain |
| `SubmissionQueue`, `GenerationQueueWorker` | the queue row, its repository transactions, the worker that claims, submits, confirms, quarantines |
| `Reconciliation` | what the worker and the recovery service make of ComfyUI's answers |
| `DriveSyncPlan`, `DriveSyncService`, `RemotePaths` | the resumable synchronization to the drive and the path builder with its parser |
| `InteractiveSteps`, `InteractiveRuns` | the interactive run, a row that several threads derive from its Generations and overwrite |
| `RepairMigrations` | the classifiers and writers of revisions 0005 to 0008 |
| `TriggerWords`, `UpscaleSizing`, `OptionalRepair` | prompt merging, upscale sizes and their second validator, the maintenance gate and sweep |
| `Text`, `Wrappers` | strings, decimals, `Option` and `Result` |

## What the model assumes

- The database is an append-only log of mutations, a snapshot is a prefix of it, and a digest determines its content;
  its printed form may collide, and the restore theorems say when that matters. One Pod at a time writes the remote
  backup, so what is published when a process starts is a prefix of its database.
- A repository write happens completely or not at all, and its answer may be lost where the model says so. A remote call
  fails without effect or with its full effect; a copy to the drive may also leave anything at its own path.
- Printing and parsing of timestamps are parameters with the one property that parsing what was printed gives it back;
  the year of `%Y` is printed without padding, as the C library does on Linux.
- `GenerationQueueWorker` is one thread per process. Worker writes count as active work in `SelfTermination` as long as
  the row they belong to is unfinished.
- Scale factors and percentages are real numbers.

## Where the code differs from what is promised

Each of these is a lemma with a concrete run or input, or a theorem that says exactly when it happens, next to the theorem
that says what does hold.

- Two overlapping drain sequences can delete the Pod without an admitted mutation
  (`OverlappingDrainsLoseAGatedMutation`): `begin_draining` returns silently when the session is DRAINING, so one
  sequence's failure reopens admission under the other. Everything that was there when the sequence saw no active work is
  published at every DELETE (`DeleteMeansBackedUp`); what is lost was written later, and then the sequence is stale or the
  write uncounted (`LostMutationNeedsAStaleDrain`).
- A drain sequence whose task is cancelled aborts nothing: its handler catches `Exception`, and a cancellation is none. The
  session stays in DRAINING and admits no work (`DrainBackupAndTerminate`, `DrainingStays`).
- A write that neither passes the admission gate nor belongs to counted work can miss the final backup
  (`UncountedWriteCanBeLost`); a worker's `release_claim` after its Generation completed is one.
- Turning auto-terminate off while the last readiness check is under way does not stop the drain
  (`DisablingDuringTheCheckStillTerminates`); the claim checks only that the session is armed. A drain is decided on a
  session that nobody has touched during the grace period exactly when it is seen in WAITING or READY
  (`DrainIsUndisturbedIff`).
- A drain that is due but cannot save DRAINING makes the coordinator forget its window and leaves the session in WAITING or
  READY, from where no window opens: while the Pod stays safe and undisturbed it is never drained again
  (`UnsavedDrainIsNotRepeated`). The same holds of a session that a restart of the application finds in WAITING or READY;
  with a window the drain comes exactly on time (`SafePodIsDrainedIff`).
- `cancel_pending` reads the row and then marks it cancelled, and `mark_cancelled` does not look at the submission state
  (`SplitCancelPendingHasNoEvidence`): the worker can submit in between, and then stops fail-closed. With one worker at a
  time that is the only way to a cancelled Generation whose prompt runs (`SingleWorkerEvidenceIff`); with several,
  `CancelledOnlyWithEvidenceIff` names the others. The repository's own README promises that a pending item is cancelled
  after its cancel request was stored; `cancel_pending` stores none.
- Every refresh of the history runs the recovery, which fails a pending Generation without a prompt ID after a while and
  leaves its queue entry alone. If a worker is submitting it just then, the confirmation moves the Generation from FAILED
  to QUEUED (`FailedBecomesQueued`). A terminal state is left only after a failure in the middle of a submission, by the
  recovery or by a second worker whose lease ran out (`TerminalIsLeftIff`, `TerminalStatesAreFinal`). The interactive runs
  assume that terminal Generation states stay, which such a run breaks.
- A submission whose lease expires is quarantined without the audit code that an operator's resolution demands, so nobody
  can link or fail it (`ExpiredSubmissionCannotBeResolved`, `QuarantineIsResolvableIff`).
- The readiness check looks a manifest up under the raw first folder of the image path. The current layout names its
  folders `YYYYMMDD_x1` or `YYYYMMDD_x4`, which is no ISO date, so the lookup raises: the check is never safe while a
  Generation of the session is stored in the current layout, and no drain ends in a DELETE (`CurrentLayoutIsNeverSafe`,
  `RawFolderIsADateIff`).
- Two threads that refresh an interactive run overwrite each other's status: a run that was shown as CANCELLED can end as
  COMPLETED and the other way round (`CancelledRunBecomesCompleted`), exactly if a cancel request falls between another
  refresher's read and write while every Generation completes (`CancelRaceIff`, `SaveLeavesTerminalIff`). An older reading
  also drops completed IDs until the next refresh (`CompletedIdsSurviveIff`).
- The gate of the optional repair is released under a running thread operation when the end of the worker's event loop
  cancels the asyncio task that waits to release it (`TwoOperationsAtOnce`), and only then (`ReleasedWhileBusyIff`). A
  release task cancelled before its first step would never release it (`GateIsStuckIff`).
- Metadata checkpoints of the drive synchronization are stored per image; if a repeated metadata copy damages the remote
  file and the next plan leaves out every image without a checkpoint, the remaining ones vouch for it
  (`PartialMetadataCheckpointsCanLie`), and only then (`RebuildingTrustsMetadataIff`).
- A resync of a record whose last attempt failed is refused: the retry transaction demands a SYNCED record for every
  resync (`Retry`).
- Turning auto-terminate off and on again takes an unarmed session out of TERMINATION_FAILED (`LastToggleWinsIff`).
- Revision 0007 is not idempotent on a cancelled job without a cancellation time (`SecondRepair7CancelsTheGeneration`,
  `Repair7IdempotentIff`).
- A trigger word with a comma is added again at every merge (`CommaWordIsAlwaysAppended`, `MergeIsIdempotentIff`,
  `ResolvingAgainChangesNothingIff`).
- Output folders of years before 1000 cannot be read back (`PathRoundTrip`), and two Generations created in the same second,
  completed on the same date in the same class, whose IDs share their first eight digits share their remote paths
  (`PathsCollideIff`).

## Model

| member | source | states |
|---|---|---|
| StateSyncTheorems.RunKeepsInv | src/runpod_sdxl_image_studio/services/state_sync_service.py:113-139 | After any interleaving of marks, writes, timers, waiting and debounced backups, failed uploads, shutdown and restarts, every stored body matches its digest, `latest.json` names a stored body, and what a restore would install has only grown. |
| StateSyncTheorems.CleanMeansEveryMarkIsBackedUp | src/runpod_sdxl_image_studio/services/state_sync_service.py:91-103 | `is_clean` together with `has_latest_remote_backup` implies that the published snapshot is a prefix of the database that holds every mutation made before any mark and before the process started, also when the unchanged-hash shortcut skipped the upload. |
| StateSyncTheorems.StoppedUploadIsRestorable | src/runpod_sdxl_image_studio/services/state_sync_service.py:197-212 | Stopping anywhere between the body, metadata and pointer uploads leaves a pointer whose body is stored with its recorded hash and size. |
| StateSyncTheorems.NoLostWakeUp | src/runpod_sdxl_image_studio/services/state_sync_service.py:123-151 | Before shutdown begins, whenever the dirty version exceeds the backed-up version, a timer whose callback will be accepted is armed or a debounced backup is on its way; stale callbacks, failed and contended backups included. |
| StateSyncTheorems.StepKeepsInv | src/runpod_sdxl_image_studio/services/state_sync_service.py:175-241 | One step of any thread keeps the publication and coverage invariants and never shrinks the published prefix. |
| StateSyncTheorems.StepKeepsWakeUp | src/runpod_sdxl_image_studio/services/state_sync_service.py:243-275 | One step of any thread other than shutdown keeps the wake-up invariant. |
| StateSyncTheorems.FaultKeepsInv | src/runpod_sdxl_image_studio/services/state_sync_service.py:229-241 | An exception between snapshot and pointer, whether or not the failing upload took effect, keeps the invariants. |
| StateSyncTheorems.CancellationKeepsInv | src/runpod_sdxl_image_studio/services/state_sync_service.py:130-137 | A task cancelled during an upload, whether or not the upload took effect, keeps the invariants; the lock is released and nothing is announced. |
| StateSyncTheorems.PointerWorkKeepsInv | src/runpod_sdxl_image_studio/services/state_sync_service.py:212 | Publishing `latest.json` extends the published prefix to the new snapshot. |
| StateSyncTheorems.SuccessWorkKeepsInv | src/runpod_sdxl_image_studio/services/state_sync_service.py:218-225 | Recording a version as backed up is covered by the published snapshot, because the version was read before the snapshot was taken under the backup lock. |
| StateSyncTheorems.MutationKeepsInv | src/runpod_sdxl_image_studio/services/state_sync_service.py:144-151 | New mutations and marks leave every earlier claim about the published prefix true. |
| StateSyncTheorems.StartKeepsInv | src/runpod_sdxl_image_studio/services/state_sync_service.py:31-70 | A fresh process over a published prefix of its database satisfies the invariant, whether or not it knows the remote digest. |
| StateSyncTheorems.StartWakeUp | src/runpod_sdxl_image_studio/services/state_sync_service.py:31-70 | A fresh process has nothing to wake up for. |
| StateSyncTheorems.MarkRestartsTheDebounce | src/runpod_sdxl_image_studio/services/state_sync_service.py:144-151 | A mark restarts the debounce: every timer armed or on its way before finds a newer token, and a follow-up leaves an armed timer alone. |
| StateSyncService.StateSyncService.constructor | src/runpod_sdxl_image_studio/services/state_sync_service.py:31-70 | A fresh service is in the start state of the protocol, with the status its configuration gives it. |
| StateSyncService.StateSyncService.ScheduleTimerLocked | src/runpod_sdxl_image_studio/services/state_sync_service.py:255-271 | Arms a timer with a new token exactly as the abstract step does: never when closed, unconfigured or write-protected, and without `reset` only when none is armed. |
| StateSyncService.StateSyncService.MarkDirty | src/runpod_sdxl_image_studio/services/state_sync_service.py:144-151 | Marks exactly if the service was enabled when it was asked, with any activity of other threads before its lock section; the new dirty version stands for the whole log at that moment, and the object stays on a run from its start state. |
| StateSyncService.StateSyncService.TimerCallback | src/runpod_sdxl_image_studio/services/state_sync_service.py:243-249 | Proceeds exactly for the current token of a service that is not closed; a stale callback changes nothing of the service. |
| StateSyncService.StateSyncService.UploadBody | src/runpod_sdxl_image_studio/services/state_sync_service.py:208 | Stores the body or fails with or without having stored it; the lock holder moves to the stage that says which. |
| StateSyncService.StateSyncService.UploadPointer | src/runpod_sdxl_image_studio/services/state_sync_service.py:212 | `latest.json` is published only after body and metadata, or the attempt is marked failed. |
| StateSyncService.StateSyncService.Publish | src/runpod_sdxl_image_studio/services/state_sync_service.py:184-217 | Succeeds exactly when the content is the last published one or all three uploads complete. |
| StateSyncService.StateSyncService.SnapshotAndPublish | src/runpod_sdxl_image_studio/services/state_sync_service.py:183-218 | Against any activity of other threads after the snapshot and during each upload: on success the last hash is that of the database at the snapshot and the version read before it is covered; on failure neither moves; others only append to the database, mark and close. |
| StateSyncService.StateSyncService.Announce | src/runpod_sdxl_image_studio/services/state_sync_service.py:219-238 | The view says SYNCED or FAILED accordingly, and a debounced caller leaves a timer behind after a failure or an uncovered mark. |
| StateSyncService.StateSyncService.BackupOnce | src/runpod_sdxl_image_studio/services/state_sync_service.py:175-241 | One attempt: success announces SYNCED with the version covered, failure announces FAILED and covers nothing new. |
| StateSyncService.StateSyncService.CheckGuards | src/runpod_sdxl_image_studio/services/state_sync_service.py:113-121 | The guards pass exactly when the service is enabled; a refusal sets the view. |
| StateSyncService.StateSyncService.TryLock | src/runpod_sdxl_image_studio/services/state_sync_service.py:122-129 | The lock is taken exactly when it is free, also if the service was closed in the meantime; a contended debounced caller leaves a timer, a contended waiting caller changes nothing. |
| StateSyncService.StateSyncService.Backup | src/runpod_sdxl_image_studio/services/state_sync_service.py:113-139 | Against any activity of other threads before each attempt on the lock and during each attempt: a waiting caller repeats only after a successful attempt during which new marks arrived, does not end without an attempt, stops short only while somebody holds the lock or marks keep arriving, and ending on success it leaves the service clean; a debounced caller makes at most one attempt and leaves a timer for what is uncovered. |
| StateSyncService.StateSyncService.Close | src/runpod_sdxl_image_studio/services/state_sync_service.py:153-173 | Against any activity of other threads, the backup lock taken included: when it is done no timer is armed and the service is closed; a mark that was uncovered has been flushed first when that was possible, and a successful flush left nothing uncovered; it waits only while somebody holds the lock or marks keep arriving; closing again changes nothing. |
| StatePointer.WrittenPointerIsRead | src/runpod_sdxl_image_studio/services/state_sync_service.py:312-323 | Every pointer the backup writes is accepted by the restore and read back with the same file name, digest, size and time. |
| StatePointer.AcceptedPointerIsSafe | src/runpod_sdxl_image_studio/services/state_restore_service.py:149-191 | Whatever JSON the remote holds, an accepted pointer names a `.sqlite3` file strictly below `backups/` by a relative path without empty, dot or dot-dot components, with a lower-case digest. |
| StatePointer.AcceptedPointerIff | src/runpod_sdxl_image_studio/services/state_restore_service.py:149-191 | A pointer is accepted exactly if it is an object of schema one with a safe relative file name, a hexadecimal digest, a size that is not negative and a readable time. |
| StatePointer.BodyFilenameInjective | src/runpod_sdxl_image_studio/services/state_sync_service.py:353-357 | Two backup names are equal only for equal creation time and digest. |
| StateRestore.RestoredIffVerified | src/runpod_sdxl_image_studio/services/state_restore_service.py:94-142 | RESTORED holds exactly when an accepted pointer named a body of matching size, digest and integrity with no database in the way; in every other case the local database is the one that was there or that somebody else created. |
| StateRestore.StatusesIff | src/runpod_sdxl_image_studio/services/state_restore_service.py:48-142 | Each other result has its exact reason: disabled by configuration, skipped for a database that was there or appeared, nothing ever published, a remote that did not answer. |
| StateRestore.StoppedBackupRestores | src/runpod_sdxl_image_studio/services/state_restore_service.py:65-142 | After any run of the backup protocol from a mirrored remote, stopped anywhere, a restore on an empty machine over a working network installs exactly the published snapshot, and reports NO_BACKUP only if nothing was ever published, as long as no two stored bodies collide. |
| StateRestore.NeverStartsWithoutTheBackup | src/runpod_sdxl_image_studio/app.py:18-28 | However the network fails, an application that starts on an empty machine after any such run starts from the published snapshot or from a database somebody else put there. |
| StateRestore.RunMirrored | src/runpod_sdxl_image_studio/services/state_sync_service.py:201-212 | Over every run the files of the remote are what the protocol believes they are, exactly as long as no two stored bodies have the same creation time and the same printed digest. |
| StateRestore.AssumptionsAreMet | src/runpod_sdxl_image_studio/services/state_sync_service.py:353-357 | There are a clock, printed digests, a run that published a snapshot, and a network that the restore theorems speak about. |
| StateRestore.BodyUploadMirrored | src/runpod_sdxl_image_studio/services/state_sync_service.py:201-208 | Uploading a body under its text name adds exactly that body to the remote, and overwrites another one exactly if their names collide. |
| StateRestore.MetadataUploadMirrored | src/runpod_sdxl_image_studio/services/state_sync_service.py:202-211 | Uploading the metadata file changes neither a stored body nor the published pointer. |
| StateRestore.PointerUploadMirrored | src/runpod_sdxl_image_studio/services/state_sync_service.py:206-212 | Uploading `latest.json` changes the published pointer and no stored body. |
| StateRestore.StateRestoreService.RestoreIfMissing | src/runpod_sdxl_image_studio/services/state_restore_service.py:48-142 | The step-by-step procedure yields the specified outcome and database, and leaves none of its working files behind. |
| StateRestore.StateRestoreService.InstallBody | src/runpod_sdxl_image_studio/services/state_restore_service.py:94-125 | The guarded part installs a downloaded body only after the size, hash and integrity checks and a second look for a local database. |
| PodLifecycle.DeletesAreSeparatedByConfirmedFailures | src/runpod_sdxl_image_studio/services/pod_lifecycle_service.py:335-426 | In every run of the session, each DELETE but the last was answered by a confirmed, non-ambiguous failure; ARMED, WAITING and READY imply that the session is armed. |
| PodLifecycle.AmbiguousIsFinal | src/runpod_sdxl_image_studio/services/pod_lifecycle_service.py:357-385 | TERMINATION_AMBIGUOUS is never left and no DELETE is issued from it. |
| PodLifecycle.RequestingWaitsForAConfirmedFailure | src/runpod_sdxl_image_studio/services/pod_lifecycle_service.py:399-423 | Until the pending DELETE is refused for certain, the session can only turn ambiguous and no further DELETE is made. |
| PodLifecycle.StatusEdges | src/runpod_sdxl_image_studio/services/pod_lifecycle_service.py:157-240 | The edges of the session: a status is entered by exactly these calls from exactly these statuses; among them, every accepted enqueue takes WAITING and READY back to ARMED. |
| PodLifecycle.RecordEdges | src/runpod_sdxl_image_studio/services/pod_lifecycle_service.py:200-208 | The arming time is set by the first accepted enqueue and by nothing else; a DELETE is added exactly by a claim and answered exactly by its answer. |
| PodLifecycle.ArmedOnce | src/runpod_sdxl_image_studio/services/pod_lifecycle_service.py:200-208 | The arming time is set once and never changes, and only the toggle changes whether auto-terminate is on. |
| PodLifecycle.FlagIsTheLastToggle | src/runpod_sdxl_image_studio/services/pod_lifecycle_service.py:212-240 | After any run auto-terminate is on exactly if the last accepted toggle turned it on: nothing else changes it and a refused toggle leaves nothing behind. |
| PodLifecycle.LastToggleWinsIff | src/runpod_sdxl_image_studio/services/pod_lifecycle_service.py:212-240 | Of two toggles in a row the first leaves no trace, exactly unless auto-terminate is turned off and on again in an unarmed session in TERMINATION_FAILED, which it takes to IDLE. |
| PodLifecycle.RunKeepsPodInv | src/runpod_sdxl_image_studio/services/pod_lifecycle_service.py:471-567 | The session invariant holds after any sequence of enqueues, toggles, drains, aborts, grace steps, claims and answers. |
| PodLifecycleService.PodLifecycleService.EnsureWorkAllowed | src/runpod_sdxl_image_studio/services/pod_lifecycle_service.py:157-167 | Work is admitted exactly outside DRAINING, REQUESTING and AMBIGUOUS. |
| PodLifecycleService.PodLifecycleService.ArmOnGenerationEnqueue | src/runpod_sdxl_image_studio/services/pod_lifecycle_service.py:185-210 | Unless the session is blocked or a DELETE has failed for certain, an enqueue that is saved leaves it ARMED, in WAITING and READY too, with the first arming time; it refuses exactly when blocked or not saved, and then changes nothing. |
| PodLifecycleService.PodLifecycleService.SetAutoTerminateEnabled | src/runpod_sdxl_image_studio/services/pod_lifecycle_service.py:212-240 | A toggle never reopens a blocked session, and otherwise moves it to ARMED, IDLE or nowhere as the session step says. |
| PodLifecycleService.PodLifecycleService.BeginDraining | src/runpod_sdxl_image_studio/services/pod_lifecycle_service.py:471-506 | Ends in DRAINING, or refuses for exactly the stated reasons without a change; a drain already under way is joined silently. |
| PodLifecycleService.PodLifecycleService.AbortDraining | src/runpod_sdxl_image_studio/services/pod_lifecycle_service.py:508-521 | A saved abort leaves DRAINING for ARMED or IDLE and never touches another status. |
| PodLifecycleService.PodLifecycleService.SetTransientState | src/runpod_sdxl_image_studio/services/pod_lifecycle_service.py:523-546 | WAITING is entered exactly from ARMED and READY exactly from WAITING, by a saved transition that is reported; any other target is refused. |
| PodLifecycleService.PodLifecycleService.ResetGraceToArmed | src/runpod_sdxl_image_studio/services/pod_lifecycle_service.py:548-567 | A grace state is reset to ARMED, exactly by a saved transition, and that is reported. |
| PodLifecycleService.PodLifecycleService.CheckReadiness | src/runpod_sdxl_image_studio/services/pod_lifecycle_service.py:242-333 | Safe exactly when no reason was collected, and exactly when every generation of the session completed and is on the drive with its manifest synced, nothing is active in ComfyUI, the transfers, the drive or the manifests, the database backup is enabled, idle, clean and successful, nothing raised and no DELETE is pending. |
| PodLifecycleService.PodLifecycleService.CheckGenerations | src/runpod_sdxl_image_studio/services/pod_lifecycle_service.py:258-289 | Passes exactly when the session has at least one generation and all of them completed. |
| PodLifecycleService.PodLifecycleService.CheckDriveSync | src/runpod_sdxl_image_studio/services/pod_lifecycle_service.py:614-635 | Passes exactly when there is a completed generation, each has a synced record and no drive job is left. |
| PodLifecycleService.PodLifecycleService.CheckManifest | src/runpod_sdxl_image_studio/services/pod_lifecycle_service.py:637-663 | Passes exactly when there is a completed generation, each has a record whose raw folder names a synced manifest, and no manifest job is left. |
| PodLifecycleService.PodLifecycleService.CheckStateBackup | src/runpod_sdxl_image_studio/services/pod_lifecycle_service.py:665-686 | Passes exactly when the backup is enabled, idle, not failed, clean and has reached the remote. |
| PodLifecycleService.CurrentLayoutIsNeverSafe | src/runpod_sdxl_image_studio/services/pod_lifecycle_service.py:637-663 | The readiness check never passes while a generation of the session is stored in the current folder layout. |
| PodLifecycleService.PodLifecycleService.ClaimTermination | src/runpod_sdxl_image_studio/services/pod_lifecycle_service.py:357-397 | Exactly one DELETE goes out, exactly from DRAINING, armed if required and with the transition saved. |
| PodLifecycleService.PodLifecycleService.RequestTerminate | src/runpod_sdxl_image_studio/services/pod_lifecycle_service.py:335-426 | A DELETE goes out exactly if a fresh check is safe, the claim finds the session DRAINING and armed if required, it is saved and the task is not cancelled before; then one DELETE is added with its answer and the status is what the answer says; otherwise only other threads have changed the session. |
| PodLifecycleService.PodLifecycleService.DrainBackupAndTerminate | src/runpod_sdxl_image_studio/services/pod_lifecycle_service.py:433-464 | A DELETE goes out exactly if the drain began or was joined, all checks passed, the backup returned, the claim found the session DRAINING and nothing was cancelled; then one DELETE is added and the sequence fails exactly if it was not accepted. Without a DELETE the session is the one the last await left, aborted if the sequence failed; a cancelled one aborts nothing. |
| PodLifecycleService.SafeDrainSends | src/runpod_sdxl_image_studio/services/pod_lifecycle_service.py:433-464 | When every check passes, the backup returns, the writes are saved, nobody takes the session out of DRAINING and nothing is cancelled, the DELETE goes out. |
| PodLifecycleService.PodLifecycleService.PrepareDelete | src/runpod_sdxl_image_studio/services/pod_lifecycle_service.py:444-451 | Ready exactly if the check before the final backup and the one after it pass, the backup returns and the task is not cancelled. |
| PodLifecycleService.DrainingStays | src/runpod_sdxl_image_studio/services/pod_lifecycle_service.py:457-463 | After a cancelled sequence the session stays in DRAINING, admits no work and issues no DELETE until another drain sequence aborts or claims. |
| SelfTermination.DeleteMeansBackedUp | src/runpod_sdxl_image_studio/services/pod_lifecycle_service.py:177-183 | Whenever a drain sequence issues a DELETE, stale or not, the published snapshot exists and holds everything the database held when that sequence saw no active work; in the DRAINING it belongs to, everything written since is a write that neither passed the gate nor belonged to counted work. |
| SelfTermination.LostMutationNeedsAStaleDrain | src/runpod_sdxl_image_studio/services/pod_lifecycle_service.py:433-464 | A DELETE loses a mutation only if it was made after the sequence saw no active work, and only by a sequence whose DRAINING was left and entered again or after an uncounted write. |
| SelfTermination.OneDrainLosesNothing | src/runpod_sdxl_image_studio/services/pod_lifecycle_service.py:433-464 | With one drain sequence at a time, and only gated or counted writes, the published snapshot equals the database at every DELETE. |
| SelfTermination.OverlappingDrainsLoseAGatedMutation | src/runpod_sdxl_image_studio/services/pod_lifecycle_service.py:479-480 | A run in which a second drain sequence joins and aborts the first, and the first, stale by a third, issues a DELETE although an admitted and marked mutation is in no backup. |
| SelfTermination.UncountedWriteCanBeLost | src/runpod_sdxl_image_studio/jobs/generation_queue_worker.py:235-245 | A run in which a write outside the gate that no active work accounts for, as a worker makes after its generation completed, lands after the final snapshot and is lost. |
| SelfTermination.RunKeepsWorldInv | src/runpod_sdxl_image_studio/services/pod_lifecycle_service.py:433-464 | The composed invariant of gate, work, drains, session and backup holds in every interleaving. |
| SelfTermination.BackupStep | src/runpod_sdxl_image_studio/services/state_sync_service.py:130-139 | A backup that took the lock after the log had n mutations announces SYNCED only with those n published. |
| SelfTermination.OneDrainKeepsItsEpoch | src/runpod_sdxl_image_studio/services/pod_lifecycle_service.py:433-464 | With one drain sequence at a time every open sequence belongs to the current DRAINING. |
| SelfTermination.EmptyWorldInv | src/runpod_sdxl_image_studio/services/pod_lifecycle_service.py:130-144 | A Pod with an empty, published database and a new session satisfies the composed invariant. |
| AutoTerminate.DrainWaitsOutTheGracePeriod | src/runpod_sdxl_image_studio/jobs/auto_terminate_worker.py:37-94 | A poll that starts a drain has an earlier poll at least the grace period before it such that auto-terminate stayed wanted, every readiness evaluation since was safe and none saw ARMED. |
| AutoTerminate.DrainIsUndisturbedIff | src/runpod_sdxl_image_studio/jobs/auto_terminate_worker.py:66-85 | A drain is decided on a session that nobody but the coordinator has written since its window opened exactly when the session is seen in WAITING or READY after the readiness check; then the window is at least the grace period long and no enqueue, toggle or drain has been accepted in it. |
| AutoTerminate.EnqueueRestartsTheWindow | src/runpod_sdxl_image_studio/jobs/auto_terminate_worker.py:66-78 | A poll does not drain when a generation was admitted before it or during its check and no toggle or drain came after: it finds the session ARMED. |
| AutoTerminate.SafePodIsDrainedIff | src/runpod_sdxl_image_studio/jobs/auto_terminate_worker.py:64-94 | A safe Pod that nobody disturbs is drained by the first poll that comes the grace period after its window opened, and by none before, exactly if it has a window: an ARMED session gets one at the next poll, one left in WAITING or READY without a window never does. |
| AutoTerminate.UnsafeCheckRearms | src/runpod_sdxl_image_studio/jobs/auto_terminate_worker.py:54-62 | An unsafe check takes a waiting session back to ARMED and closes its window. |
| AutoTerminate.UnsavedDrainIsNotRepeated | src/runpod_sdxl_image_studio/jobs/auto_terminate_worker.py:80-94 | A drain that is due but cannot save DRAINING closes the window and leaves the session in WAITING or READY; while the Pod stays safe and undisturbed, no later poll drains it. |
| AutoTerminate.WatchedKeepsBaselineInv | src/runpod_sdxl_image_studio/jobs/auto_terminate_worker.py:66-78 | After any polls an undisturbed open window has the session in a grace state, ARMED or blocked. |
| AutoTerminate.NewWatchInv | src/runpod_sdxl_image_studio/jobs/auto_terminate_worker.py:24-36 | A coordinator that has not polled yet satisfies both invariants of the window. |
| AutoTerminate.DisablingDuringTheCheckStillTerminates | src/runpod_sdxl_image_studio/jobs/auto_terminate_worker.py:52-85 | Turning auto-terminate off during the last readiness check does not stop the drain: the DELETE is claimed although auto-terminate is off. |
| AutoTerminate.WatchedKeepsInv | src/runpod_sdxl_image_studio/jobs/auto_terminate_worker.py:37-94 | The window bookkeeping agrees with the writes of other threads after any number of polls. |
| AutoTerminate.AutoTerminateCoordinator.RunOnce | src/runpod_sdxl_image_studio/jobs/auto_terminate_worker.py:37-94 | One poll makes the specified decision and leaves `_ready_since` as specified, including when a manual drain wins the race for the transition. |
| SubmissionQueue.AtMostOnePromptCall | src/runpod_sdxl_image_studio/jobs/generation_queue_worker.py:193-241 | For any number of workers and any crashes, timeouts, lost answers, failed writes, expired leases and cancellations, at most one `/prompt` call is made per Generation; READY means none was made, and after one the row is submitting, ambiguous or carries its prompt ID. |
| SubmissionQueue.StepKeepsOnceInv | src/runpod_sdxl_image_studio/adapters/database/repositories/generation_dispatch_queue_repository.py:669-821 | Every repository transaction keeps the at-most-once invariant, never re-enters READY and never loses track of a quarantined or prompt-carrying row. |
| SubmissionQueue.EveryAbandonedRowGoesSomewhere | src/runpod_sdxl_image_studio/adapters/database/repositories/generation_dispatch_queue_repository.py:1270-1325 | Once its workers are gone and its lease has expired, a row is terminal, claimable, carries its prompt ID or is quarantined; a quarantined row that was not so from the start can be resolved by an operator exactly if a worker recorded the quarantine. |
| SubmissionQueue.QuarantineIsResolvableIff | src/runpod_sdxl_image_studio/adapters/database/repositories/generation_dispatch_queue_repository.py:1595-1618 | After any run an unfinished quarantined row passes the checks of `link_ambiguous_prompt` and `fail_ambiguous_prompt` exactly if a worker recorded the undetermined outcome; what an expired lease quarantined has no audit code and never gets one. |
| SubmissionQueue.ExpiredSubmissionCannotBeResolved | src/runpod_sdxl_image_studio/adapters/database/repositories/generation_dispatch_queue_repository.py:1270-1325 | A run in which the worker dies after its `/prompt` call: the expired lease quarantines the row and no operator can link or fail it. |
| SubmissionQueue.CancelledOnlyWithEvidenceIff | src/runpod_sdxl_image_studio/adapters/database/repositories/generation_dispatch_queue_repository.py:920-968 | For any number of workers and any interleaving: at every moment of the run a cancelled Generation has no prompt submitted and no worker that will submit one, or ComfyUI reported its prompt cancelled, exactly if no mark of the run hits a submission that has begun. |
| SubmissionQueue.EvidenceIsLostIff | src/runpod_sdxl_image_studio/adapters/database/repositories/generation_dispatch_queue_repository.py:920-968 | One step loses that evidence exactly if it is the mark of `cancel_pending`, of a cancel request read earlier or of a worker that has not begun, on an unfinished Generation with a call made or a worker started and no report of ComfyUI. |
| SubmissionQueue.SingleWorkerEvidenceIff | src/runpod_sdxl_image_studio/services/generation_queue_service.py:293-309 | With one worker at a time only a `cancel_pending` can lose it: the evidence is there throughout exactly if no submission begins between the read and the mark of one. |
| SubmissionQueue.SplitCancelPendingHasNoEvidence | src/runpod_sdxl_image_studio/services/generation_queue_service.py:293-309 | A run in which `cancel_pending` reads before and marks after a submission: the Generation is cancelled with one unreported `/prompt` call, and the worker can neither store the prompt ID nor quarantine the item. |
| SubmissionQueue.TwoWorkersHaveNoEvidence | src/runpod_sdxl_image_studio/jobs/generation_queue_worker.py:221-228 | A run with two workers and an expired lease in which a submitted Generation is cancelled without evidence. |
| SubmissionQueue.TerminalStatesAreFinal | src/runpod_sdxl_image_studio/adapters/database/repositories/generation_dispatch_queue_repository.py:712-771 | With any number of workers, and no failure by the recovery or by a worker that has not begun that hits the Generation between the beginning of its submission and its confirmation, a terminal Generation and its Job are never changed again, not even through the gap in `cancel_pending`. |
| SubmissionQueue.TerminalIsLeftIff | src/runpod_sdxl_image_studio/services/generation_recovery_service.py:215-231 | Whatever step ends a Generation, a later one can take it back exactly if that step failed it in the middle of a submission, as the recovery of overdue rows does, with the submitting worker still holding the item. |
| SubmissionQueue.FailedBecomesQueued | src/runpod_sdxl_image_studio/ui/tabs/history_tab.py:353-354 | A run in which the history is refreshed while a slow worker waits for the answer to its `/prompt` call: the Generation goes from FAILED to QUEUED. |
| SubmissionQueue.StepKeepsTerminalInvIff | src/runpod_sdxl_image_studio/domain/generation.py:46-70 | Every transaction moves Generation and Job along the transition table and leaves terminal rows alone, and it keeps the invariant of terminal rows exactly if it is no failure in the middle of a submission. |
| SubmissionQueue.EnqueuedKeepsAll | src/runpod_sdxl_image_studio/adapters/database/repositories/generation_dispatch_queue_repository.py:597-625 | A freshly enqueued row satisfies the invariants of all these theorems. |
| SubmissionQueue.TransitionsIff | src/runpod_sdxl_image_studio/domain/generation.py:46-70 | Statuses are passed in one order, none is skipped except by ending and none is come back to. |
| SubmissionQueue.SubmissionCompletes | src/runpod_sdxl_image_studio/adapters/database/repositories/generation_dispatch_queue_repository.py:712-771 | An undisturbed submission by any worker makes one call, puts any prompt ID on the row and can be settled as RUNNING and COMPLETED. |
| SubmissionQueue.RequestCancels | src/runpod_sdxl_image_studio/jobs/generation_queue_worker.py:221-228 | A cancel request that reaches the worker before it begins cancels the Generation without a call. |
| SubmissionQueue.OperatorResolvesOnce | src/runpod_sdxl_image_studio/adapters/database/repositories/generation_dispatch_queue_repository.py:970-1060 | A resolvable row can be linked, which queues it under the named prompt ID, or failed, and after either cannot be resolved again. |
| SubmissionQueue.ResolutionGoesByTheCode | src/runpod_sdxl_image_studio/adapters/database/repositories/generation_dispatch_queue_repository.py:1595-1618 | An undetermined outcome can be resolved exactly while it is unfinished, a row marked by a migration also when it has failed, and no other quarantined row. |
| SubmissionQueue.ConfirmationIsIdempotent | src/runpod_sdxl_image_studio/adapters/database/repositories/generation_dispatch_queue_repository.py:712-771 | Storing the same prompt ID twice is accepted without a change, another one is refused, and a submitted row is not quarantined. |
| SubmissionQueue.CancellationsIff | src/runpod_sdxl_image_studio/adapters/database/repositories/generation_dispatch_queue_repository.py:920-968 | A cancellation leaves a finished row alone; an unfinished one is asked to stop, or is cancelled, freed and marked as asked. |
| SubmissionQueue.NothingIsLeftUnfinished | src/runpod_sdxl_image_studio/adapters/database/repositories/generation_dispatch_queue_repository.py:1340-1450 | A stateless restore, and a prompt that stayed missing, fail exactly the unfinished sides and free the row. |
| GenerationQueueWorker.GenerationQueueWorker.ClaimNext | src/runpod_sdxl_image_studio/adapters/database/repositories/generation_dispatch_queue_repository.py:597-667 | Claims the first claimable row in queue order and changes no other. |
| GenerationQueueWorker.GenerationQueueWorker.Submit | src/runpod_sdxl_image_studio/services/generation_service.py:970-999 | The call is made exactly if the row can be begun, the begin was stored and answered and the request is sent; the row is then submitted under its prompt ID or quarantined, or the worker has stopped fail-closed; without disturbance it is exactly the stated row. |
| GenerationQueueWorker.GenerationQueueWorker.Confirmation | src/runpod_sdxl_image_studio/jobs/generation_queue_worker.py:68-78 | An accepted and stored confirmation puts exactly the answered prompt ID on the row; anything else ends in quarantine or fail-closed, with exactly the stated row when it was this worker’s own. |
| GenerationQueueWorker.GenerationQueueWorker.QuarantineSubmission | src/runpod_sdxl_image_studio/jobs/generation_queue_worker.py:288-303 | An unclear outcome is recorded as ambiguous, and exactly when that cannot be recorded the worker fails closed. |
| GenerationQueueWorker.GenerationQueueWorker.EndBeforeStart | src/runpod_sdxl_image_studio/jobs/generation_queue_worker.py:221-228 | Before the submission began, a cancellation cancels, an exception fails the item exactly if that is saved, and no call is made. |
| GenerationQueueWorker.GenerationQueueWorker.RunOnce | src/runpod_sdxl_image_studio/jobs/generation_queue_worker.py:161-246 | Claims the first claimable row exactly when there is one and the query succeeds; the call is made exactly if the attempt comes to it; whatever other workers do to the row, the call is accounted for there unless this worker stopped fail-closed; undisturbed, the row, the fail-closed flag and the released claim are exactly the stated ones. |
| GenerationQueueWorker.AcceptedPromptIsRecorded | src/runpod_sdxl_image_studio/jobs/generation_queue_worker.py:193-241 | An undisturbed attempt whose prompt is accepted and confirmed makes one call and leaves the row QUEUED and SUBMITTED under exactly that prompt ID. |
| GenerationQueueWorker.GenerationQueueWorker.Run | src/runpod_sdxl_image_studio/jobs/generation_queue_worker.py:138-155 | Makes one attempt after another, each with the promises of `run_once` on the rows the one before left, until one fails closed; no attempt, and so no call, follows it. |
| Reconciliation.ReconciledIff | src/runpod_sdxl_image_studio/services/generation_service.py:383-503 | Over the answers themselves: an unfinished row is completed exactly on stored or fetched images, failed exactly on a reported failure or a wrong output, left alone otherwise; a cancellation, a missing prompt and progress are reported exactly when ComfyUI says so. |
| Reconciliation.WorkerSettlesIff | src/runpod_sdxl_image_studio/jobs/generation_queue_worker.py:354-367 | Terminal rows stay. The worker completes a row exactly on images, cancels it exactly when ComfyUI reports the prompt cancelled or interrupted, fails it exactly on a failure, a wrong output or a prompt missing for the grace period, each if that write is saved, and otherwise changes nothing. |
| Reconciliation.CancelSettlesIff | src/runpod_sdxl_image_studio/jobs/generation_queue_worker.py:248-276 | An item that was asked to stop is cancelled exactly if no submission has begun, ComfyUI cancelled its prompt, or says that it is over and reports an interruption; completed only on images, failed only on a failure or a prompt missing for the grace period, and otherwise left for another try. |
| Reconciliation.CompletedImagesAreTheOutputs | src/runpod_sdxl_image_studio/services/generation_service.py:442-487 | A recovered completion stores exactly the outputs, in order and numbered 0 to n-1. |
| Reconciliation.PathsAgreeIff | src/runpod_sdxl_image_studio/services/generation_recovery_service.py:199-304 | For an unfinished row whose writes succeed, `recover` and the worker reach the same decision exactly when there is no stored primary image or ComfyUI says the prompt finished. |
| Reconciliation.ReconciliationService.StoreOutputs | src/runpod_sdxl_image_studio/services/generation_service.py:442-469 | Stores outputs until the first that is not an image, which decides the outcome. |
| Reconciliation.ReconciliationService.ReconcilePrompt | src/runpod_sdxl_image_studio/services/generation_service.py:383-503 | Yields the specified outcome and row for every answer of the status reader and the history, every failed write included. |
| Reconciliation.ReconciliationService.ReconcileItem | src/runpod_sdxl_image_studio/jobs/generation_queue_worker.py:278-286 | Applies an interruption on top of the reconciliation, and reports its outcome. |
| Reconciliation.ReconciliationService.SettleItem | src/runpod_sdxl_image_studio/jobs/generation_queue_worker.py:354-367 | Adds the grace-period rule: a prompt that stayed missing fails the item. |
| Reconciliation.ReconciliationService.CancelItem | src/runpod_sdxl_image_studio/jobs/generation_queue_worker.py:248-276 | Asks ComfyUI to stop the prompt, or cancels what has none, and settles the row by the answer as specified. |
| Reconciliation.ReconciliationService.RecoverJob | src/runpod_sdxl_image_studio/services/generation_recovery_service.py:199-304 | One pass of the recovery loop, status reader first and history second, with or without a prompt ID, yields the specified row. |
| Reconciliation.RecoveredIff | src/runpod_sdxl_image_studio/services/generation_recovery_service.py:199-304 | Terminal rows stay. Without a prompt ID the recovery fails exactly the overdue pending rows; with one it completes exactly what has finished with images or has a stored one, cancels exactly what was cancelled or interrupted and fails exactly what failed, gave a wrong output or stayed missing for the grace period, each if that write is saved. |
| DriveSyncPlan.RebuildingStaysTruthful | src/runpod_sdxl_image_studio/services/drive_sync_service.py:892-966 | Rebuilding the plan for a retry, a resync, another destination or changed, added, removed or reordered sources keeps every image checkpoint true of the remote and all paths distinct. |
| DriveSyncPlan.RebuildingTrustsMetadataIff | src/runpod_sdxl_image_studio/services/drive_sync_service.py:1213-1234 | The rebuilt plan trusts an absent metadata file exactly if it resumes the same destination with the same metadata and leaves out every image whose metadata checkpoint is missing. |
| DriveSyncPlan.KeepingTheImagesKeepsTheTruth | src/runpod_sdxl_image_studio/services/drive_sync_service.py:1213-1234 | A plan whose checkpoints are true stays true when it keeps every image without a metadata checkpoint. |
| DriveSyncPlan.RetryResumes | src/runpod_sdxl_image_studio/services/drive_sync_service.py:1193-1234 | An unchanged retry resumes exactly what was done; a resync or a new destination starts from nothing. |
| DriveSyncPlan.PartialMetadataCheckpointsCanLie | src/runpod_sdxl_image_studio/services/drive_sync_service.py:489-506 | If a repeated metadata copy breaks the remote file after only some images got their metadata checkpoint, the plan for those images alone trusts a file that is not there. |
| DriveSyncPlan.CheckpointAddsItsSize | src/runpod_sdxl_image_studio/services/drive_sync_service.py:467-488 | A checkpoint adds exactly its own size to the completed bytes, which stay within the total. |
| DriveSyncPlan.SyncedIsPartOfAll | src/runpod_sdxl_image_studio/services/drive_sync_service.py:447-470 | The completed bytes never exceed the total and reach it when every image is done. |
| DriveSyncService.DriveSyncService.ProcessJob | src/runpod_sdxl_image_studio/services/drive_sync_service.py:369-551 | SYNCED is reached exactly if the sources are unchanged, every image without a checkpoint is copied and recorded, the metadata was there or is copied with all its checkpoints, and the result is saved; then every image is at its path, and the metadata exactly unless the last rebuild was trapped; checkpoints are never lost, no other path is touched, every report is valid and the last equals the total. |
| DriveSyncService.DriveSyncService.SyncedMeansPresent | src/runpod_sdxl_image_studio/services/drive_sync_service.py:518-519 | In every reachable state a SYNCED record has all its images on the remote, and its metadata exactly unless the last rebuild was trapped. |
| DriveSyncService.DriveSyncService.SourcesUnchanged | src/runpod_sdxl_image_studio/services/drive_sync_service.py:386-436 | Passes exactly when the completed Generation still has its planned metadata and every planned image is found by its ID with hash and size, in whatever order. |
| DriveSyncService.PlannedIffReordered | src/runpod_sdxl_image_studio/services/drive_sync_service.py:397-416 | With unique image IDs the local images pass exactly when they are the planned ones in some order. |
| DriveSyncService.DriveSyncService.CopyWithProgress | src/runpod_sdxl_image_studio/services/drive_sync_service.py:1062-1115 | A copy succeeds exactly if the tool does, changes only its own path, reports only byte counts within the total, whatever the tool reports, and ends on its own size. |
| DriveSyncService.DriveSyncService.UpdateProgress | src/runpod_sdxl_image_studio/services/drive_sync_service.py:1117-1137 | Within the total the progress record is always valid and its percentage exact. |
| DriveSyncService.DriveSyncService.CopyImages | src/runpod_sdxl_image_studio/services/drive_sync_service.py:473-488 | Done exactly if every copy that is needed ends well and is recorded; a checkpoint is there afterwards exactly if it was before or everything up to it went well; the byte count is exact. |
| DriveSyncService.DriveSyncService.CopyMetadata | src/runpod_sdxl_image_studio/services/drive_sync_service.py:489-506 | Done exactly if the copy ends well and every checkpoint is stored; however it fails, the plan trusts nothing that is absent: the file is complete before the first checkpoint. |
| DriveSyncService.DriveSyncService.Retry | src/runpod_sdxl_image_studio/services/drive_sync_service.py:189-250 | Refuses an active record, a synced one without resync, a resync of a record that is not synced or whose manifest is not ready, and missing images; otherwise replaces the plan by the rebuilt one, which is trapped in exactly the stated case. |
| RemotePaths.PathRoundTrip | src/runpod_sdxl_image_studio/services/drive_sync_service.py:1249-1254 | For every valid completion date, kind, display order and image count, the date read back from image and metadata path is the one enqueued for the manifest exactly when the year has four digits without padding; before the year 1000 nothing is read back. |
| RemotePaths.DateBelowFolder | src/runpod_sdxl_image_studio/domain/drive_sync.py:348-361 | Every path below the output folder gives the folder date, exactly from the year 1000 on. |
| RemotePaths.ImagePathsAreDistinct | src/runpod_sdxl_image_studio/domain/drive_sync.py:387-396 | Image paths of one Generation are injective in the display order. |
| RemotePaths.MetadataPathIsNoImagePath | src/runpod_sdxl_image_studio/domain/drive_sync.py:298-304 | No image path of a Generation is its metadata path. |
| RemotePaths.PathsCollideIff | src/runpod_sdxl_image_studio/domain/drive_sync.py:280-304 | Two Generations share their paths exactly when completion date, class, creation second and the first eight ID digits agree. |
| RemotePaths.IsoRoundTrip | src/runpod_sdxl_image_studio/domain/drive_sync.py:285 | Reading a printed ISO date gives the date. |
| RemotePaths.RawFolderIsADateIff | src/runpod_sdxl_image_studio/services/pod_lifecycle_service.py:648-652 | The first folder of a path that has a date is itself that date exactly when the path has the old layout. |
| RemotePaths.FolderOfImagePath | src/runpod_sdxl_image_studio/services/pod_lifecycle_service.py:648-652 | The first folder of every image path the builder makes is its output folder and never an ISO date. |
| RemotePaths.FolderShowsTheClass | src/runpod_sdxl_image_studio/domain/drive_sync.py:307-384 | The folder is the date of completion with `_x4` exactly for a fourfold output: by the final flag, by the factor, or without one by both sides. |
| RemotePaths.PathsWrittenOut | src/runpod_sdxl_image_studio/domain/drive_sync.py:280-304 | The paths of one created and completed moment, written out. |
| RemotePaths.DatesMustAgree | src/runpod_sdxl_image_studio/services/drive_sync_service.py:1249-1254 | A record has a manifest date exactly when its image and its metadata path have the same one. |
| InteractiveSteps.RunKeepsWorldInv | src/runpod_sdxl_image_studio/services/interactive_generation_service.py:262-384 | For any number of threads that refresh the shared row from old readings and write it unconditionally: after every run COMPLETED means that every generation completed, FAILED that one failed, CANCELLED that all ended without a failure, and a terminal status is left only for the other one of COMPLETED and CANCELLED. |
| InteractiveSteps.SaveLeavesTerminalIff | src/runpod_sdxl_image_studio/adapters/database/repositories/interactive_run_repository.py:314-358 | A terminal status is overwritten exactly by a write whose refresher read every generation as completed and the row on the other side of the cancel request; FAILED never conflicts. |
| InteractiveSteps.CancelRaceIff | src/runpod_sdxl_image_studio/services/interactive_generation_service.py:232-260 | After a cancellation was recorded, a terminal status can still be left exactly if another refresher had read the row as ACTIVE before the request and not written since, with no generation failed or cancelled. |
| InteractiveSteps.RaceNeedsARefreshInBetween | src/runpod_sdxl_image_studio/services/interactive_generation_service.py:262-384 | In every run that leaves a terminal status, a cancel request found the row ACTIVE with such a refresher under way. |
| InteractiveSteps.StraddleConflicts | src/runpod_sdxl_image_studio/services/interactive_generation_service.py:346-384 | From such a refresher both bad endings follow: COMPLETED over CANCELLED and CANCELLED over COMPLETED. |
| InteractiveSteps.CancelledRunBecomesCompleted | src/runpod_sdxl_image_studio/services/interactive_generation_service.py:165-174 | A run in which the worker reads an ACTIVE run, the user cancels it and sees it CANCELLED, and the worker then writes COMPLETED. |
| InteractiveSteps.SettledNeverLeaves | src/runpod_sdxl_image_studio/services/interactive_generation_service.py:346-384 | Once no refresher with a reading from before the request is left, no run writes COMPLETED or leaves a terminal status. |
| InteractiveSteps.CompletedIdsSurviveIff | src/runpod_sdxl_image_studio/adapters/database/repositories/interactive_run_repository.py:326-333 | A write keeps the completed IDs of the row exactly if its reading saw each of them as completed. |
| InteractiveSteps.CompletedIsSubsequence | src/runpod_sdxl_image_studio/services/interactive_generation_service.py:274-282 | The completed IDs are a subsequence of the run’s IDs. |
| InteractiveSteps.CompletedGrows | src/runpod_sdxl_image_studio/services/interactive_generation_service.py:274-282 | When more generations are read as completed, the earlier completed IDs are a subsequence of the later ones. |
| InteractiveSteps.SaveDecidesIff | src/runpod_sdxl_image_studio/services/interactive_generation_service.py:313-384 | What a write makes of the status, over what its reading saw: FAILED on a failure; on a complete reading of ended generations COMPLETED or, if that was asked for or one was cancelled, CANCELLED; otherwise as the row has it. |
| InteractiveSteps.CurrentIsTheFirstUnfinished | src/runpod_sdxl_image_studio/services/interactive_generation_service.py:283-308 | The current item is the first one read as unfinished, and none exactly if all have ended. |
| InteractiveRuns.InteractiveGenerationService.Refresh | src/runpod_sdxl_image_studio/services/interactive_generation_service.py:262-384 | From any earlier reading and with other refreshers at every step the row keeps its evidence, nobody comes to write COMPLETED who could not before, and the recursion ends after one level; it is saved whenever its writes are; with no other writer in between a terminal status is kept, and with successful reads no completed ID is lost, a failed generation fails the run and a run whose generations have all ended is completed or cancelled as they say. |
| InteractiveRuns.InteractiveGenerationService.ReadItems | src/runpod_sdxl_image_studio/services/interactive_generation_service.py:265-272 | Failed reads leave items out; if none is left out the items are the run’s IDs in order, and an item read as terminal still is. |
| InteractiveRuns.InteractiveGenerationService.Summarize | src/runpod_sdxl_image_studio/services/interactive_generation_service.py:283-308 | Finds whether an item failed or was cancelled, how many are terminal, and the first unfinished one. |
| InteractiveRuns.InteractiveGenerationService.SaveProgress | src/runpod_sdxl_image_studio/services/interactive_generation_service.py:346-384 | Writes what its own reading concludes, whatever the row says by then, exactly if there is something to write and the write succeeds: a decision exactly when every ID was read as terminal and the row as not. |
| InteractiveRuns.InteractiveGenerationService.SaveFailure | src/runpod_sdxl_image_studio/services/interactive_generation_service.py:313-341 | A failure is recorded together with the completed IDs of the reading. |
| InteractiveRuns.InteractiveGenerationService.Cancel | src/runpod_sdxl_image_studio/services/interactive_generation_service.py:232-260 | A cancelled run is not ACTIVE again and is marked as asked, and ends as COMPLETED only if another refresher had read it before the request and not written yet; undisturbed, it ends as its ended generations say. |
| RepairMigrations.RepairsNeverResend | alembic/versions/0005_phase4_submission_state_and_retry_idempotency.py:127-198 | After 0005 to 0008 a row is claimable exactly if it was pending on both sides, without prompt, cancellation or stored image; no terminal side is revived. |
| RepairMigrations.Repair5IsSafe | alembic/versions/0005_phase4_submission_state_and_retry_idempotency.py:127-198 | Exactly which rows 0005 leaves claimable, and no terminal side is revived. |
| RepairMigrations.Repair6IsSafe | alembic/versions/0006_phase4_reconcile_existing_state.py:58-127 | Exactly which rows 0006 leaves claimable, and no terminal side is revived. |
| RepairMigrations.Repair7IsSafe | alembic/versions/0007_phase4_terminal_state_repair.py:84-173 | Exactly which rows 0007 leaves claimable, and no terminal side is revived. |
| RepairMigrations.Repair8IsSafe | alembic/versions/0008_phase4_recovery_correction.py:50-110 | 0008 makes no row claimable and revives nothing. |
| RepairMigrations.RepairsMakePairsAgree | alembic/versions/0007_phase4_terminal_state_repair.py:228-287 | After all four repairs Generation and Job agree, or the pair is quarantined with conflicting prompt IDs. |
| RepairMigrations.RepairsKeepPromptIds | alembic/versions/0005_phase4_submission_state_and_retry_idempotency.py:136-154 | No repair drops a prompt ID; conflicting ones are both kept. |
| RepairMigrations.RepairsConcludeFromEvidence | alembic/versions/0007_phase4_terminal_state_repair.py:84-196 | A repaired row is completed only with a completed side or a stored image, cancelled only with a cancelled side, a cancellation time or a cancel request for a pending Generation without a prompt, failed only with a failed side or for lack of a prompt ID on a pair that had left pending. |
| RepairMigrations.RepairsDecideIff | alembic/versions/0007_phase4_terminal_state_repair.py:84-196 | Exactly what the four repairs make of every pair without conflicting prompt IDs: a stored image completes what has neither failed nor been cancelled, a cancelled side weighs more than a failed one and that more than a completed one, a cancellation time more than either, a live pair goes by its prompt ID. |
| RepairMigrations.QuarantineIsMarked | alembic/versions/0008_phase4_recovery_correction.py:50-110 | A cancel request without a prompt and a pair without a prompt carry the code by which an operator can resolve them, and 0008 tells a first attempt from a retry. |
| RepairMigrations.Repair7IdempotentIff | alembic/versions/0007_phase4_terminal_state_repair.py:84-173 | Running 0007 twice equals running it once exactly unless the job is cancelled without a cancellation time and nothing else decides the pair. |
| RepairMigrations.SecondRepair7CancelsTheGeneration | alembic/versions/0007_phase4_terminal_state_repair.py:124-127 | A concrete row that the first run of 0007 quarantines as pending and the second cancels. |
| RepairMigrations.Repair7IdempotentAfter6 | alembic/versions/0007_phase4_terminal_state_repair.py:228-287 | On every row 0006 can leave behind 0007 is idempotent. |
| RepairMigrations.RunRepairs | alembic/versions/0007_phase4_terminal_state_repair.py:38-77 | The upgrades one after another, with the retry links that 0005 removes and 0008 reads, leave every row as the composition says and exactly the safe rows claimable. |
| RepairMigrations.DeduplicateRetryLinks | alembic/versions/0005_phase4_submission_state_and_retry_idempotency.py:66-86 | In order of creation, every later retry of an item loses its link and nothing else changes. |
| RepairMigrations.RetryLinksAreUnique | alembic/versions/0005_phase4_submission_state_and_retry_idempotency.py:41-46 | Afterwards no two rows share a link, so the unique index can be created. |
| RepairMigrations.FirstRetryKeepsItsLink | alembic/versions/0005_phase4_submission_state_and_retry_idempotency.py:76-86 | The first retry of every item keeps its link. |
| TriggerWords.MergeIsFaithful | src/runpod_sdxl_image_studio/domain/lora_search.py:32-55 | Original tokens stay in front and in order; only missing tokens are added and none twice; every comma-free word is present afterwards; a changed prompt is within the limit. |
| TriggerWords.MergeIsIdempotentIff | src/runpod_sdxl_image_studio/domain/lora_search.py:40-51 | Merging again changes nothing exactly when no trigger word holds a comma. |
| TriggerWords.CommaWordIsAlwaysAppended | src/runpod_sdxl_image_studio/domain/lora_search.py:44-48 | A word with a comma is appended to any prompt, however often it is there already. |
| TriggerWords.AppendTriggerWords | src/runpod_sdxl_image_studio/domain/lora_search.py:32-51 | The loop computes the specified merge, including the refusal of a prompt that is too long. |
| TriggerWords.ResolvedPromptIsFaithful | src/runpod_sdxl_image_studio/services/lora_trigger_service.py:26-58 | Over any list of LoRAs the effective prompt has the original tokens in front and in order followed by exactly what was added: stripped words of enabled LoRAs that the prompt did not have, no comma-free one twice; every comma-free word of an enabled LoRA is present, and a changed prompt is within the limit. |
| TriggerWords.ResolvingAgainChangesNothingIff | src/runpod_sdxl_image_studio/services/lora_trigger_service.py:26-58 | The effective prompt resolves to itself exactly when no enabled LoRA has a trigger word with a comma. |
| TriggerWords.ResolveEffectivePositivePrompt | src/runpod_sdxl_image_studio/services/lora_trigger_service.py:26-58 | The loop computes the specified resolution over the LoRAs in ascending order and stops at the first that cannot be resolved. |
| TriggerWords.SortByOrderIsStable | src/runpod_sdxl_image_studio/services/lora_trigger_service.py:40 | The LoRAs are taken in ascending order, those of one order as they were given, none lost or added. |
| TriggerWords.TokensOfStrip | src/runpod_sdxl_image_studio/domain/lora_search.py:54-55 | White space around a prompt does not change its tokens. |
| TriggerWords.AdditionsAreNew | src/runpod_sdxl_image_studio/domain/lora_search.py:41-45 | What is added is stripped, non-blank, new to the prompt and without repetition, and no non-blank word is missed. |
| UpscaleSizing.ResolvedSize | src/runpod_sdxl_image_studio/domain/upscale.py:81-112 | Every size is 64-aligned, not smaller than the source and within all limits; by factor each side is the least multiple of 64 not below source times factor, overshooting by less than 64. |
| UpscaleSizing.FactorNeverShrinks | src/runpod_sdxl_image_studio/domain/upscale.py:108-109 | Sizing by a factor is never refused as smaller than the source. |
| UpscaleSizing.ResolvesIff | src/runpod_sdxl_image_studio/domain/upscale.py:81-112 | A size comes out exactly if it is the one asked for, not smaller than the source and within every limit, the largest factor included. |
| UpscaleSizing.SafeNamesAreRelative | src/runpod_sdxl_image_studio/domain/upscale.py:148-158 | A safe model name is relative on either kind of system and never goes up. |
| UpscaleSizing.SnapshotAcceptsResolvedSize | src/runpod_sdxl_image_studio/domain/upscale_snapshot.py:52-88 | For a size the sizing accepted, the snapshot’s own checks pass exactly when the source identity is valid. |
| UpscaleSizing.SnapshotResolvesToItself | src/runpod_sdxl_image_studio/domain/upscale_snapshot.py:154-168 | Settings read back from a snapshot are valid and resolve to the stored size. |
| OptionalRepair.GateIsReleasedAtMostOnce | src/runpod_sdxl_image_studio/services/generation_recovery_service.py:97-172 | In every interleaving of callers, thread operations and cancellations the gate is released at most once per acquisition, and held exactly when an acquisition is not yet released. |
| OptionalRepair.ReleasedWhileBusyIff | src/runpod_sdxl_image_studio/services/generation_recovery_service.py:163-172 | The gate is released while a thread operation runs exactly when a started release, or the operation it awaits, is cancelled as an asyncio task while its operation runs. |
| OptionalRepair.GateIsStuckIff | src/runpod_sdxl_image_studio/services/generation_recovery_service.py:159-172 | The gate ends up held by nobody exactly when a release task is cancelled before its first step. |
| OptionalRepair.TwoOperationsAtOnce | src/runpod_sdxl_image_studio/jobs/generation_queue_worker.py:391-398 | A run in which the stop of the worker cancels first the maintenance and then its release task, and a second operation starts beside the first. |
| OptionalRepair.IdleKeepsGateInv | src/runpod_sdxl_image_studio/services/generation_recovery_service.py:79-80 | A free gate satisfies the invariant, is not stuck and has nothing running. |
| OptionalRepair.StepKeepsGateInv | src/runpod_sdxl_image_studio/services/generation_recovery_service.py:151-172 | Whoever still owes the release is the only owner, and only the cancellation of an unstarted release task loses it. |
| OptionalRepair.EveryCandidateIsAttempted | src/runpod_sdxl_image_studio/services/generation_recovery_service.py:109-125 | Over a stable candidate set, from any cursor, every candidate is attempted within one round more than a full sweep needs. |
| OptionalRepair.OptionalRepairService.RepairRound | src/runpod_sdxl_image_studio/services/generation_recovery_service.py:82-149 | A round attempts exactly the candidates after the cursor, from the start when there are none, goes on after a failed attempt, reports every other outcome in order and leaves the cursor on the last one attempted; a failed query attempts nothing, and when it was the query from the start the cursor has been reset. |

## Left out

- StateSyncService.StateSyncService.Backup: between the last lock sections of an attempt, from the recorded success on, no other thread runs; those interleavings are steps of `StateSyncSteps`. A task cancelled while it waits is the event `WaiterLeaves`, one cancelled during an upload the event `Cancelled`; both belong to other callers here.
- StateRestore.StateRestoreService.RestoreIfMissing: the permissions of the temporary file, the creation of directories and errors while deleting working files are not modelled.
- StateRestore.RunMirrored: a failed upload leaves its file alone or complete; half-written files of the remote are not modelled.
- PodLifecycleService.PodLifecycleService.CheckReadiness: the repeated reads of one drive record within a check give the same answer; repeated reasons are not merged.
- PodLifecycleService.PodLifecycleService.DrainBackupAndTerminate: the backup inside it is a step that returns, raises or is cancelled; what it guarantees is proved in `SelfTermination`.
- SelfTermination.DeleteMeansBackedUp: a restart keeps the Pod; restoring on a new Pod is covered by `StateRestore`.
- GenerationQueueWorker.GenerationQueueWorker.RunOnce: heartbeats, progress events and the retrying of a failed lease release are not modelled; a mismatch of the two prompt ID columns, which only older data can contain, appears in `RepairMigrations` alone.
- SubmissionQueue.TerminalStatesAreFinal: rows that an older migration had failed, which an operator's link reopens on purpose, are not covered; their resolution is an event and `AtMostOnePromptCall` holds of them.
- Reconciliation.ReconciliationService.RecoverJob: the messages of `recover`, and a second probe with other answers inside its completed branch, are not modelled.
- DriveSyncService.DriveSyncService.ProcessJob: leases and process identifiers are not modelled.
- DriveSyncService.DriveSyncService.Retry: the missing remote configuration and the verification of the local files before a resync are one with a write that is not saved.
- RemotePaths.DateBelowFolder: old paths are read in the extended ISO format only; the basic and week formats of newer Python versions are not modelled.
- RepairMigrations.RunRepairs: error summaries and lease columns are written by the repairs but read by none of them.
- The SQL behind the repositories beyond the guards and columns of the modelled transactions, rclone, HTTP and WebSocket adapters.
- The non-queue `generate` path, progress, image decoding, thumbnails, sidecars, workflow building.
- `retry`, batch validation and batch seeds of the queue service, presets, snapshots field by field, health and catalog views: they would add only easy members.
- The Gradio interface, logging, user-facing messages, schema-only migrations and metadata import.
