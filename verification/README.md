# Encoder and recorder: verified model

A Dafny model of the stateful cores of the AutoStream encoder and recorder, with
proofs of what they promise. `dafny verify dfyconfig.toml` checks the whole project.

The model covers:

- **Two-phase stream start** (`Start*.dfy`). Every mutex region of prepare, commit,
  abort, expiry, process exit, cleanup, legacy start and stop is one atomic step;
  timeouts are early returns that may happen at any wait. `StartProtocol` holds the
  steps over values, `StartSafety` the inductive invariant, `StartTheorems` and
  `StartEvents` the properties of all runs, and `StartManager` the objects and maps that
  the regions update in place, each method proved to take exactly one protocol step.
- **Archive v2 migration** (`Migration*.dfy`). Planning, backup, apply with rollback,
  verify and restore over a file tree. An archive keeps a trace of the trees it has shown
  that ends with the present one and goes from tree to tree by a single rename, creation or
  directory made or removed, so that a crash may be put before or after any effect; every
  operation takes a choice of failing effects. A digest is some function of content.
- **Video Cover apply** (`Cover*.dfy`). Fences, the bounded replay table, ambiguous
  deliveries, last-good state and watermark interference, and the durable generation.
- **Audio speaker playout** (`Speaker*.dfy`). Packet choice modulo 2^16 (section 5.1 of
  RFC 3550), in-place queue compaction, bounded concealment and the PCM buffer over a
  decoder that may answer anything. A distance of exactly 2^15, for which section 3.2
  of RFC 1982 leaves the order open, counts as late.
- **Image feed** (`Image*.dfy`). Versions, waiters, the replaceable notification
  channel, one writer, and Close.
- **Formats and data structures**. The FFmpeg tee text and a tokenizer that reads it
  back (`TeeOutput.dfy`), the asset cache (`AssetCache.dfy`) and the PNG and WebP chunk
  walkers (`ChunkWalk.dfy`; section 5.3 of the PNG Specification, section 2.3 of RFC 9649).

## What turned out false, and when it holds

- A commit does not check that its preparation is finished. `CommitTimingIsExact`: the
  slot stays exclusive over all later runs if and only if the prepare owner had closed
  prepareDone, which it does before it answers, when the commit claimed the preparation.
  `TwoOwnersAreReachable` runs from an empty manager to an early commit and on to two owners.
- An abort that times out is not followed by another one: the flag that admits the only
  abort is never reset. `LostSlotExactly`: after it the slot is owned for ever if and only
  if there is no process and the owner will not start one any more;
  `LostSlotIsReachable` is such a run.
- `Restore` does not take back a plan that saw a file at a destination:
  `OriginPassesExactly` says that the tree such a plan was made from passes preflight,
  for applying and for restoring, if and only if no destination file existed, and
  `ObstructedTreeExists` that there is a tree that does not pass.
- A restore that fails does not always leave a tree that a restore can start from again.
  `Archive.Restore`, through `Leaves`: the tree is recoverable if and only if the first
  fault that strikes is not a copy cut short with bytes other than the original ones. After
  such a copy a later restore is let through if and only if the torn bytes have the size and
  digest of the original (`TornPassesExactly`); `TornRestoreBlocks` is a run that ends
  refused for good. A crash in the middle of a copy that would have succeeded is the same
  event: the model shows a copied file only when it is whole, while the source's `io.Copy`
  grows it, so a crash inside a copy leaves what a torn copy leaves.
- A backup that reported a failure may be accepted later. `RetryBackup`: it is if and only
  if every object had been written and a manifest that reads back as the plan. So it is when
  only the manifest's sync or close failed, and when the manifest lacks its final newline.
- Cover generations do not always rise. The pairs put on record rise if and only if no start
  puts an older job on record (`RunRisesExactly`). The pairs that starts are answered with
  rise if and only if each is for a newer job than the last one, or for the same job while the
  record or the copy in memory still knows its generation (`IssuedRisesExactly`). The first
  condition implies the second (`NeverOlderGoesOn`) but not the other way round
  (`OlderUnansweredJob`); `OlderJobReissues` is a pair answered twice.
- The check of the decoder's sample count lets every count from 2^62 on through, since
  its product wraps (`UsableExactly`).
- A tee path that is not valid UTF-8 is printed with U+FFFD and does not read back:
  `RangedFaithfully` says that exactly the well-encoded strings survive.

## Model

| member | source | states |
|---|---|---|
| `StartTheorems.PreparedStartOwnsAlone` | internal/streamproc/start_preparation.go:51-99 | in every reachable state a prepared start that owns the slot is the only owner and no other record has a live process |
| `StartTheorems.ReleasedMeansDrained` | internal/streamproc/start_preparation_commit.go:106-177 | a prepared start without the slot has closed prepareDone, has had its process reaped if one was installed, has finished its cleanup and rests in a terminal phase |
| `StartTheorems.ClosedAtMostOnce` | internal/streamproc/start_preparation_commit.go:106-204 | exited, cleanupDone and prepareDone are closed at most once, the bridge closure and the feed at most once, even when an abort meets a process being started |
| `StartTheorems.TerminalIsAbsorbing` | internal/streamproc/start_preparation_commit.go:31-77 | failed, aborted and expired are absorbing as a set, and an unreported commit never reports running after them |
| `StartTheorems.FirstClaimWins` | internal/streamproc/start_preparation.go:173-185 | whichever of commit and expiry claims a preparation first, the other never does |
| `StartTheorems.ReceiptsAreBounded` | internal/streamproc/start_preparation.go:160-172 | at most 64 terminal receipts and the one live start, 65 in all, stay on file, over all runs |
| `StartEvents.RunningIsEarned` | internal/streamproc/start_preparation_commit.go:46-82 | over every run, running is reported only after a witnessed commit of a claim made in time, of a start that was not cancelled |
| `StartEvents.TerminalPhaseIsEarned` | internal/streamproc/start_preparation_commit.go:83-137 | over every run, expired comes from the timer, aborted from a request, and failed from the process, the commit or the owner |
| `StartEvents.AbortEndsInCallersPhase` | internal/streamproc/start_preparation_commit.go:166-175 | the release of an abort leaves the slot free and the phase of whoever aborted: aborted for a request, expired for the timer, failed otherwise |
| `StartTheorems.EarlyCommitIsUnsafe` | internal/streamproc/start_preparation_commit.go:11-40 | a commit claimed while prepareDone is open has a continuation with two owners of the slot |
| `StartTheorems.CommitTimingIsExact` | internal/streamproc/start_preparation_commit.go:11-77 | a commit keeps the slot exclusive over every later run if and only if the prepare owner had closed prepareDone |
| `StartAbandoned.EarlyClaimIsReachable` | internal/streamproc/start_preparation_commit.go:11-40 | a run from the empty manager in which a commit is admitted while prepareDone is open |
| `StartAbandoned.TwoOwnersAreReachable` | internal/streamproc/start_preparation_commit.go:11-77 | a whole run with an early commit and two owners of the slot at its end |
| `StartAbandoned.LostSlotExactly` | internal/streamproc/start_preparation_commit.go:106-151 | after the only abort has timed out, the slot is never released in any run if and only if there is no process and none will be started |
| `StartAbandoned.StuckForEver` | internal/streamproc/start_preparation_commit.go:126-151 | without a process nothing releases the slot again |
| `StartAbandoned.SlotCanComeFree` | internal/streamproc/process_lifecycle.go:199-246 | with a process a run of its owner, reaper and cleanup releases the slot |
| `StartAbandoned.LostSlotIsReachable` | internal/streamproc/start_preparation_commit.go:106-137 | a run from the empty manager that loses the slot for good |
| `StartSafety.StepKeeps` | internal/streamproc/start_preparation_commit.go:11-204 | every timely step of every actor keeps the invariant of the whole manager |
| `StartSafety.RunKeeps` | internal/streamproc/process_lifecycle.go:199-246 | the invariant holds along every run |
| `StartSafety.InstallKeeps` | internal/streamproc/manager.go:299-336 | installing a process into an owner that was cancelled meanwhile keeps the record in order |
| `StartSafety.OwnerKeeps` | internal/httpapi/start_preparation_routes.go:90-129 | the prepare owner's steps, in their order and with a failure after any of them, keep the record in order |
| `StartSafety.EnterKeeps` | internal/streamproc/start_preparation_commit.go:106-135 | an abort that enters late neither regains the slot nor repeats the cleanup |
| `StartSafety.ExitKeeps` | internal/streamproc/process_lifecycle.go:199-246 | noticing a process exit keeps the record in order in every phase |
| `StartSafety.BeginKeeps` | internal/streamproc/start_preparation.go:64-99 | a new preparation takes the slot only when nobody has it |
| `StartSafety.LegacyReserveKeeps` | internal/streamproc/manager.go:174-197 | a legacy start never joins a prepared one |
| `StartManager.Manager.StaysInOrder` | internal/streamproc/start_preparation_commit.go:11-204 | any region called in time keeps the invariant and the exclusive slot |
| `StartManager.Manager.BeginStartPreparation` | internal/streamproc/start_preparation.go:64-99 | the method takes the protocol's begin step, with the same refusals |
| `StartManager.Manager.SetPreparationCleanup` | internal/streamproc/start_preparation.go:103-111 | the cleanup closure is accepted only while preparing and in the table |
| `StartManager.Manager.ReserveSlot` | internal/streamproc/manager.go:174-186 | a prepared start goes on only with its own record in the table |
| `StartManager.Manager.InstallProcess` | internal/streamproc/manager.go:299-336 | the late install takes the protocol's step, also for a cancelled owner |
| `StartManager.Manager.FinishStartPreparation` | internal/streamproc/start_preparation.go:101-102 | the owner closes prepareDone |
| `StartManager.Manager.CommitClaim` | internal/streamproc/start_preparation_commit.go:11-40 | the claim region takes the protocol's step |
| `StartManager.Manager.CommitResolve` | internal/streamproc/start_preparation_commit.go:46-82 | running is published exactly for a witnessed claim that still stands; otherwise status and phase stay |
| `StartManager.Manager.ExpirePreparation` | internal/streamproc/start_preparation.go:173-185 | expiry claims exactly a prepared start that is due, current and on file |
| `StartManager.Manager.AbortEnter` | internal/streamproc/start_preparation_commit.go:106-135 | answers at once exactly when everything is drained, becomes the only abort exactly when there was none, and takes the phase of its caller |
| `StartManager.Manager.AbortRelease` | internal/streamproc/start_preparation_commit.go:156-177 | the last region of an abort releases the slot and files the receipt |
| `StartManager.Manager.RememberTerminal` | internal/streamproc/start_preparation.go:160-172 | a receipt is filed once and the newest 64 are kept, through the trimming loop |
| `StartManager.Manager.CleanupDetach` | internal/streamproc/start_preparation_commit.go:179-204 | the cleanup takes its feeds and closure exactly once |
| `StartManager.Manager.WaitExit` | internal/streamproc/process_lifecycle.go:199-246 | the exit region takes the protocol's step |
| `StartManager.Manager.WaitRelease` | internal/streamproc/process_lifecycle.go:199-246 | the release region takes the protocol's step |
| `StartManager.Manager.Stop` | internal/streamproc/process_lifecycle.go:15-59 | only a running process is asked to stop |
| `StartManager.Manager.FindOwner` | internal/streamproc/start_preparation.go:51-60 | the loop finds an owner exactly when there is one |
| `StartManager.Manager.IsDrained` | internal/streamproc/process_lifecycle.go:111-120 | drained exactly when every process is cleaned up and failed or stopped |
| `StartManager.Manager.ReserveLegacy` | internal/streamproc/manager.go:186-199 | a legacy reservation takes the protocol's step, with the same refusals |
| `StartManager.Manager.AbandonLegacy` | internal/streamproc/manager.go:199-208 | a failed legacy start removes only its own reservation |
| `StartManager.Manager.InstallLegacy` | internal/streamproc/manager.go:368-379 | a legacy process replaces its reservation |
| `MigrationRoundTrip.CrashAndRestore` | internal/archive/v2migration/migration.go:347-393 | plan, back up, apply, crash before, between or after any effects: restoring the tree then on disk gives the original tree, directories included |
| `MigrationRoundTrip.RestoreCutOff` | internal/archive/v2migration/migration.go:347-393 | a restore with any faults, cut off before its last effect: restoring again gives the original tree |
| `MigrationRoundTrip.AppliesAgree` | internal/archive/v2migration/migration.go:253-321 | from every mix of pending and moved entries an apply ends in the same tree, and one more is a no-op |
| `MigrationRoundTrip.RestoreTwice` | internal/archive/v2migration/migration.go:347-393 | restoring is idempotent, even if the second one's effects would all fail |
| `MigrationRoundTrip.TornRestoreBlocks` | internal/archive/v2migration/migration.go:603-633 | a restore cut short in a copy leaves a tree that every later restore and apply refuses, with a whole backup at hand |
| `MigrationRoundTrip.RetryBackup` | internal/archive/v2migration/migration.go:207-240 | a second backup is accepted if and only if every object and a manifest that reads back as the plan had been written the first time |
| `MigrationArchive.Archive.Apply` | internal/archive/v2migration/migration.go:253-321 | all or nothing: success places every entry, failure leaves every file as it was; the exact condition for success; every tree from the first to the last can be recovered |
| `MigrationArchive.Archive.Restore` | internal/archive/v2migration/migration.go:347-393 | a conflict changes nothing; otherwise it succeeds exactly when no fault hits a needed effect, and then gives the original tree, lost directories above the sources included; every tree before the last is recoverable, and the last one exactly when the first fault that strikes tore no entry |
| `MigrationArchive.Archive.Verify` | internal/archive/v2migration/migration.go:323-345 | accepts exactly a valid backup with every entry at its destination and none at its source |
| `MigrationArchive.Archive.Preflight` | internal/archive/v2migration/migration.go:442-460 | accepts exactly pending, applied and, when restoring, lost entries that nothing clashes with |
| `MigrationArchive.Archive.ProbeFile` | internal/archive/v2migration/migration.go:462-493 | a path clashes, is absent or matches, parents checked without creating any |
| `MigrationArchive.Archive.VerifyInputs` | internal/archive/v2migration/migration.go:415-436 | plan, backup, the artifact's digest and count and, if asked, the live tree are all checked |
| `MigrationArchive.Archive.EnsureDir` | internal/archive/v2migration/migration.go:579-601 | creates exactly the missing directories of a path, or fails with part of the way made or a file in it |
| `MigrationArchive.Archive.CleanupDirectories` | internal/archive/v2migration/migration.go:395-413 | removes exactly run directories of the plan, and all that were empty |
| `MigrationArchive.Archive.Rollback` | internal/archive/v2migration/migration.go:258-272 | renaming back in reverse order gives the files from before, and run directories left empty go |
| `MigrationArchive.Archive.ApplyEntry` | internal/archive/v2migration/migration.go:273-310 | one entry is moved, found in place, or refused with no file changed |
| `MigrationArchive.Archive.RestoreEntry` | internal/archive/v2migration/migration.go:358-384 | one source is brought back from its destination or the backup; missing directories above it are made; a failure changes no file, or leaves exactly the bytes of a torn copy |
| `MigrationArchive.Archive.CopyBack` | internal/archive/v2migration/migration.go:603-633 | an object is written only over a missing file and checked; a torn copy leaves its partial bytes |
| `MigrationArchive.Archive.FinishRestore` | internal/archive/v2migration/migration.go:385-392 | every source is checked again and emptied run directories go |
| `MigrationPlanning.BuildPlan` | internal/archive/v2migration/migration.go:57-134 | a plan lists every legacy file once with its digest and its place below the spelled-out run directory; refusals are exact |
| `MigrationPlanning.PlanStream` | internal/archive/v2migration/migration.go:75-125 | one stream's files are planned below the spelled-out run directory unless its name or that directory is unsafe |
| `MigrationPlanning.UnplannableExactly` | internal/archive/v2migration/migration.go:75-125 | a stream is refused exactly when it is a file, or has a legacy file and no canonical name or a file in place of its run directory |
| `MigrationPlanning.BackupStore.Backup` | internal/archive/v2migration/migration.go:195-240 | an existing directory is only checked; a new one is valid exactly when sources match, places are free, no copy failed and a manifest that reads back as the plan was written, also when the call then fails |
| `MigrationPlanning.BackupStore.CopyObject` | internal/archive/v2migration/migration.go:603-633 | succeeds exactly for a matching source, a free place and no fault |
| `MigrationPlanning.PlannedIsPlaceable` | internal/archive/v2migration/migration.go:57-134 | the objects of a planned tree and the manifest have places of their own and the sources match |
| `MigrationPlanning.BackupServesRestore` | internal/archive/v2migration/migration.go:195-240 | a backup of the planned tree is what a restore relies on |
| `MigrationPlan.RunIdIdentifiesStream` | internal/archive/v2migration/migration.go:163-180 | streams with one run identity have one canonical name |
| `MigrationPlan.RunIdSpelled` | internal/archive/v2migration/migration.go:163-180 | the run identity of a canonical name is legacy- and its five groups of digits |
| `MigrationPlan.RunIdExactly` | internal/archive/v2migration/migration.go:163-180 | a name has a run identity exactly when trimmed and in lower case it is canonical, and then that one's |
| `MigrationPlan.CanonicalExactly` | internal/archive/v2migration/migration.go:163-180 | canonical are exactly thirty-six characters, lower-case hexadecimal digits in five groups with dashes between |
| `MigrationPlan.TrimExactly` | internal/archive/v2migration/migration.go:164-164 | trimming drops exactly the white space at both ends |
| `MigrationPlan.EntryOkExactly` | internal/archive/v2migration/migration.go:442-493 | the conditions of preflight on one entry, spelled out over files and directories |
| `MigrationPlan.AcceptedExactly` | internal/archive/v2migration/migration.go:415-436 | the conditions on plan, manifest, objects, digest and count, spelled out |
| `MigrationPlan.PlannedIsSeparate` | internal/archive/v2migration/migration.go:57-134 | destinations and backups are distinct and no destination is a source |
| `MigrationPlan.OriginPassesExactly` | internal/archive/v2migration/migration.go:442-460 | the planned tree passes preflight if and only if no destination file existed |
| `MigrationPlan.ObstructedIsRefused` | internal/archive/v2migration/migration.go:442-460 | a tree with a file at a planned destination has a plan, and neither an apply nor a restore lets it through |
| `MigrationPlan.CanonicalHasRun` | internal/archive/v2migration/migration.go:163-180 | every canonical name has its run identity |
| `MigrationPlan.ObstructedTreeExists` | internal/archive/v2migration/migration.go:442-460 | there is a tree with a plan that neither an apply nor a restore accepts |
| `MigrationStates.OneFileLineage` | internal/archive/v2migration/migration.go:273-299 | a one-file tree, before and after its move, meets the conditions of the recovery lemmas |
| `MigrationStates.NothingLostDirs` | internal/archive/v2migration/migration.go:273-345 | where every file of the plan is at its source or its destination, no original directory is lost |
| `MigrationStates.MoveUndone` | internal/archive/v2migration/migration.go:258-272 | renaming back undoes a move exactly |
| `MigrationStates.PlacedTreeIsUnique` | internal/archive/v2migration/migration.go:273-345 | the fully placed tree does not depend on the tree it was reached from |
| `MigrationStates.AllPendingIsOrigin` | internal/archive/v2migration/migration.go:347-393 | with every source back, the files are the original ones |
| `MigrationStates.RecoverablePasses` | internal/archive/v2migration/migration.go:442-460 | preflight accepts every tree a crash may leave, up to lost entries when applying |
| `MigrationStates.MoveStaysRecoverable` | internal/archive/v2migration/migration.go:296-299 | a rename leads from a recoverable tree to a recoverable tree |
| `MigrationStates.ReturnStaysRecoverable` | internal/archive/v2migration/migration.go:369-380 | bringing an entry back leads to a recoverable tree |
| `MigrationSteps.TornPassesExactly` | internal/archive/v2migration/migration.go:442-460 | a tree with a torn source is let through exactly when the torn bytes match and, for an apply, nothing else is lost |
| `MigrationSteps.StoppedLeaves` | internal/archive/v2migration/migration.go:358-384 | where a restore stops decides whether its tree is recoverable |
| `MigrationSteps.WidenedIsRecoverable` | internal/archive/v2migration/migration.go:579-601 | making the lost directories above a source leads to a recoverable tree |
| `MigrationSteps.RunDirsEmpty` | internal/archive/v2migration/migration.go:395-413 | after all files are back the migration's own directories are empty |
| `CoverTheorems.RunsTellTheTruth` | internal/streamproc/cover_apply.go:69-158 | over every run from a prepared start: nothing is claimed before the first witness, feed revisions rise, ready, known and witnessed are equivalent, and the known state (or last good) is what the committed start, or the request whose delivery was the last to be witnessed, asked for |
| `CoverTheorems.AcceptedOnce` | internal/streamproc/cover_apply.go:69-133 | an accepted request is never delivered again, not even after its replay entry is gone |
| `CoverTheorems.ReplayIsExact` | internal/streamproc/cover_apply.go:70-75 | until 256 further keys have been stored the same request gets the same answer and changes nothing; if nobody asks again meanwhile, its entry is there exactly so long |
| `CoverTheorems.OldestIsDropped` | internal/streamproc/cover_state.go:147-160 | a full table loses exactly its oldest key |
| `CoverTheorems.AcceptedExactly` | internal/streamproc/cover_apply.go:76-120 | a fresh request is accepted if and only if it passes every fence and its asset loads; a refusal leaves state, feed and watermark alone |
| `CoverTheorems.OutcomeExactly` | internal/streamproc/cover_apply.go:122-157 | an accepted request is applied exactly when it was witnessed, and then desired, applied, cover layer, asset and witness are its own; otherwise the last witnessed apply is last good and nothing is claimed; the feed has it exactly when it was written |
| `CoverTheorems.CodesExactly` | internal/streamproc/cover_apply.go:76-120 | each fence and each way a load fails has its own code, in this order |
| `CoverTheorems.StoppedCodesExactly` | internal/streamproc/cover_apply.go:49-65 | the same fences for a stopped process, and graph unavailable past them |
| `CoverTheorems.WatermarkExactly` | internal/streamproc/runtime_settings.go:52-95 | an observed update takes the next revision and leaves the cover alone; an unobserved one takes the witness and keeps the last witnessed apply as last good |
| `CoverTheorems.RetiredKeepsLastGood` | internal/streamproc/archive_package.go:204-231 | retirement keeps a terminal state that claims only the last witnessed apply |
| `CoverTheorems.SnapshotBindsWatermark` | internal/streamproc/cover_state.go:203-213 | a report binds the current watermark to the state and to its witness and changes nothing else |
| `CoverTheorems.RefusalsReportTheState` | internal/streamproc/cover_state.go:81-102 | a refusal reports the state as it stands, except for graph and asset faults, which show as not ready; a key bound to another request refuses and binds nothing |
| `CoverTheorems.StoppedOnlyRejects` | internal/streamproc/cover_apply.go:49-65 | a process that no longer runs accepts nothing, changes nothing, and never claims a known state for a new revision |
| `CoverTheorems.StoredOk` | internal/streamproc/cover_state.go:147-160 | storing keeps the order free of duplicates, equal to the keys and within 256 |
| `CoverTheorems.ApplyKeeps` | internal/streamproc/cover_apply.go:36-158 | one apply of any outcome keeps the invariant |
| `CoverTheorems.StepKeeps` | internal/streamproc/runtime_settings.go:52-79 | commits, applies, watermark updates, stops and retirement all keep the invariant |
| `CoverRuntime.Tracked.constructor` | internal/streamproc/cover_state.go:23-42 | a start begins with nothing witnessed and nothing claimed |
| `CoverRuntime.Tracked.CommitStart` | internal/streamproc/start_preparation_commit.go:69-73 | the commit publishes the running status and the very picture the start asked for together |
| `CoverRuntime.Tracked.ApplyVideoCover` | internal/streamproc/cover_apply.go:36-158 | state, table, feed and answer are those of the specified apply; an invalid request, spelled out, is refused and changes nothing |
| `CoverRuntime.Tracked.AnswerWhileStopped` | internal/streamproc/cover_apply.go:49-65 | a stopped process answers from its last or terminal state |
| `CoverRuntime.Tracked.Deliver` | internal/streamproc/cover_apply.go:122-157 | a witnessed frame becomes the known state, an unobserved one is ambiguous with the last good kept |
| `CoverRuntime.Tracked.MarkCoverApplied` | internal/streamproc/cover_state.go:44-70 | desired, applied, layer, asset and witness are set together, all to what was asked for |
| `CoverRuntime.Tracked.StoreReplay` | internal/streamproc/cover_state.go:147-160 | the trimming loop keeps the newest 256 |
| `CoverRuntime.Tracked.MarkWatermarkWitnessUnknown` | internal/streamproc/cover_state.go:184-197 | an unobserved watermark takes the witness away and keeps the last good state |
| `CoverRuntime.Tracked.UpdateWatermark` | internal/streamproc/runtime_settings.go:52-95 | an observed watermark enters state and witness, also when the process stopped after the update was admitted; its revision is a 64-bit counter |
| `CoverRuntime.Tracked.UpdateSettings` | internal/streamproc/runtime_settings.go:52-95 | only a running process is updated; one that stops before the watermark is seen is updated too, and the caller is told of a failure |
| `CoverRuntime.Tracked.VideoCoverState` | internal/streamproc/cover_apply.go:15-30 | what is reported is the state itself, with every equivalence holding |
| `CoverRuntime.Tracked.ForgetJob` | internal/streamproc/archive_package.go:204-231 | retirement drops replays and state and keeps a terminal one |
| `CoverGeneration.RunRisesExactly` | internal/streamproc/cover_generation.go:22-48 | over any starts, restarts and failing writes the pairs put on record rise lexicographically if and only if no start put an older job on record |
| `CoverGeneration.NewPairIsNewestExactly` | internal/streamproc/cover_generation.go:35-41 | the next pair is newer than all before if and only if the job is not older than the one on record |
| `CoverGeneration.NextFollowsRecord` | internal/streamproc/cover_generation.go:35-41 | without older jobs the next pair is generation one of a new job or the one after the record |
| `CoverGeneration.MemoryIsRedundant` | internal/streamproc/cover_generation.go:35-37 | without older jobs the copy in memory never changes the outcome, so a restart forgets nothing |
| `CoverGeneration.OlderJobReissues` | internal/streamproc/cover_generation.go:22-48 | an answered pair comes up twice when an older job intervenes |
| `CoverGeneration.IssuedRisesExactly` | internal/streamproc/cover_generation.go:22-48 | over any starts, restarts and failing writes the pairs that starts are answered with rise if and only if every start goes on from the last answered one |
| `CoverGeneration.NextIssueRisesExactly` | internal/streamproc/cover_generation.go:35-48 | the next answered pair is newer than the last one if and only if its job is newer, or the same with its generation still known to the record or the copy in memory |
| `CoverGeneration.NeverOlderGoesOn` | internal/streamproc/cover_generation.go:22-48 | starts that put no older job on record are answered with rising pairs |
| `CoverGeneration.OlderUnansweredJob` | internal/streamproc/cover_generation.go:35-48 | rising answers although an older job was put on record by a start that failed |
| `CoverGeneration.ExhaustedStaysPut` | internal/streamproc/cover_generation.go:114-121 | after the last 64-bit generation a start is refused, not wrapped |
| `CoverGeneration.PreparedStartBeginsEpoch` | internal/streamproc/start_preparation.go:81-88 | a prepared start begins a job no earlier pair has |
| `CoverGeneration.Generations.NextCoverGeneration` | internal/streamproc/cover_generation.go:22-48 | record, copy and answer are those of the specified step, and an answered pair is newer than all before; the answered ones go on rising |
| `CoverGeneration.Generations.WriteRecord` | internal/streamproc/cover_generation.go:114-168 | a write takes hold or not; it may report failure after taking hold |
| `SpeakerPlayout.Speaker.NextFrame` | internal/audioingest/manager.go:740-784 | ends for every decoder; the buffer stays even and within 21118 samples; samples come out once and in order, padded only when nothing is left; the packets received are, as a multiset, those waiting, dropped and given to the decoder; the history agrees with the missing counter and the expected number and tells where the sound of every gap and packet stands |
| `SpeakerPlayout.Speaker.GapStandsBetween` | internal/audioingest/manager.go:746-773 | among everything ever produced the sound of a gap stands between the sounds of its two packets, and there is some exactly when packets are missing |
| `SpeakerPlayout.Speaker.DecodePacket` | internal/audioingest/manager.go:746-773 | the sound of the gap comes first, then that of the packet, and nothing else; the gap is counted and the packet enters the history |
| `SpeakerPlayout.Speaker.AcceptDecoded` | internal/audioingest/manager.go:769-773 | the expected number follows the packet and exactly the decoded samples are appended |
| `SpeakerPlayout.Speaker.ResetDecoder` | internal/audioingest/manager.go:757-767 | a failure forgets the sequence and counts the reset |
| `SpeakerPlayout.Speaker.AdvanceIsCounted` | internal/audioingest/manager.go:746-770 | since the last decoder reset the real missing counter's growth plus the packets decoded is the advance of the expected number, through any number of wraps |
| `SpeakerHistory.MissingPlusDecodedIsAdvance` | internal/audioingest/manager.go:746-770 | over any unbroken stretch of the decoder's history and any way to number it, missing plus decoded is the advance |
| `SpeakerHistory.LineExists` | internal/audioingest/manager.go:746-770 | every unbroken stretch can be numbered, moving only forward |
| `SpeakerHistory.LineIsUnique` | internal/audioingest/manager.go:746-770 | the numbering is determined by its first number |
| `SpeakerPlayout.Speaker.Pop` | internal/audioingest/manager.go:786-832 | takes the first packet at the minimum forward distance, drops the late ones, keeps the others; the lengths add up |
| `SpeakerPlayout.Speaker.FindNearest` | internal/audioingest/manager.go:796-813 | the scan finds the nearest forward packet and counts the late ones |
| `SpeakerPlayout.Speaker.Compact` | internal/audioingest/manager.go:820-831 | compaction in place keeps exactly the waiting packets |
| `SpeakerQueue.PopAccounts` | internal/audioingest/manager.go:786-832 | waiting, late and taken packets are together the old queue |
| `SpeakerHistory.PoppedKnown` | internal/audioingest/manager.go:786-832 | moving a popped packet to the history and the late ones to the dropped keeps the multiset of all packets |
| `SpeakerQueue.WaitingKeepsOrder` | internal/audioingest/manager.go:820-831 | the waiting packets are all other forward ones, in their order |
| `SpeakerQueue.UnwrapsForward` | internal/audioingest/manager.go:796-801 | a forward distance is a step on the unwrapped line |
| `SpeakerQueue.LateExactly` | internal/audioingest/manager.go:799-806 | a packet is late unless it is the expected one or one of the 32767 after it |
| `SpeakerHistory.PoppedSpelled` | internal/audioingest/manager.go:786-822 | the packet taken is the first when nothing is expected, and otherwise at the smallest distance ahead |
| `SpeakerPlayout.Speaker.Conceal` | internal/audioingest/manager.go:834-870 | a gap adds exactly what the decoder makes up for at most five missing packets, or silence, cut to five frames; useless answers and frames rounded up are counted |
| `SpeakerPlayout.Speaker.FillGap` | internal/audioingest/manager.go:746-752 | one gap, its missing packets and its sound are accounted for, and nothing for the expected packet |
| `SpeakerPlayout.Speaker.ConcealOne` | internal/audioingest/manager.go:838-865 | one packet adds decoded samples or silence, cut to what remains, whatever the decoder's count |
| `SpeakerPlayout.Speaker.Enqueue` | internal/audioingest/manager.go:625-632 | the queue is the newest 100 packets |
| `SpeakerPlayout.UsableExactly` | internal/audioingest/manager.go:756-757 | the count check admits exactly 1 to 5760, and everything from 2^62 on |
| `SpeakerPlayout.UsableSounds` | internal/audioingest/manager.go:756-773 | an answer is used exactly for 1 to 5760 samples per channel, and all of them sound |
| `ImageFeed.RunKeeps` | internal/imagefeed/source.go:103-269 | delivered never passes version and only rises, over every interleaving |
| `ImageFeed.SuccessMeansWritten` | internal/imagefeed/source.go:150-169 | a waiter succeeds only after a complete write of a version at least its own, byte for byte |
| `ImageFeed.NoLostWakeup` | internal/imagefeed/source.go:150-169 | a blocked waiter with nothing to wait for can wake; any other is on the current channel |
| `ImageFeed.WaiterLearns` | internal/imagefeed/source.go:150-169 | after a delivery or a close a blocked waiter wakes, looks once and learns which of the two it was |
| `ImageFeed.UpdateTakesFrame` | internal/imagefeed/source.go:103-125 | an open feed takes exactly the given frame under the next version, a closed one nothing |
| `ImageFeed.ChannelsCloseOnce` | internal/imagefeed/source.go:178-202 | no run closes a channel twice, and the current one is closed exactly when the feed is; an idle writer that is behind has a signal pending |
| `ImageFeed.TurnServesWaiter` | internal/imagefeed/source.go:234-258 | one undisturbed turn of the writer serves any blocked waiter |
| `ImageSource.Source.Update` | internal/imagefeed/source.go:103-125 | an open feed takes the frame under the next version and signals the writer |
| `ImageSource.Source.CheckDelivered` | internal/imagefeed/source.go:150-169 | delivered exactly when the version is, closed exactly when the feed is and it is not, and otherwise the channel read with them |
| `ImageSource.Source.MarkDelivered` | internal/imagefeed/source.go:260-269 | an open feed moves exactly to a newer version and replaces the channel after closing it |
| `ImageSource.Source.Close` | internal/imagefeed/source.go:178-190 | closing is idempotent and wakes everyone |
| `ImageSource.Source.WriteTurn` | internal/imagefeed/source.go:234-258 | a completed turn has sent the frame it copied and marked that version and no later one, whatever updates and closes came in while it wrote; an interrupted one marks nothing |
| `ImageSource.Source.WriteFull` | internal/imagefeed/source.go:271-283 | success means every byte once and in order, however writes are split |
| `TeeOutput.BuildLiveTeeOutput` | internal/ffmpeg/command.go:372-400 | the text reads back as the intended slaves, options and URLs for every target and path, without a quotation |
| `TeeOutput.LiveSlavesSpelled` | internal/ffmpeg/command.go:372-383 | the live target comes first and may fail, the archive second and may not, the preview third if there is one |
| `TeeOutput.PreviewSpelled` | internal/ffmpeg/command.go:384-398 | the options of the preview, which may fail, is buffered and keeps every segment |
| `TeeOutput.TeeRoundTrip` | internal/ffmpeg/command.go:372-400 | any list of slaves with any option values and URLs reads back exactly |
| `TeeOutput.TokenRoundTrip` | internal/ffmpeg/command.go:432-441 | an escaped token reads back whole before any terminator, white space included |
| `TeeOutput.EscapeFFmpegToken` | internal/ffmpeg/command.go:432-441 | the loop escapes every special character of the ranged string |
| `TeeOutput.EscapedExactly` | internal/ffmpeg/command.go:434-437 | a backslash precedes exactly backslashes, quotes, terminators and white space |
| `TeeOutput.EscapeTeeOptionValue` | internal/ffmpeg/command.go:424-426 | option values are escaped for both levels |
| `TeeOutput.RangedFaithfully` | internal/ffmpeg/command.go:434-439 | exactly the well-encoded strings come through unchanged |
| `AssetCache.Loader.constructor` | internal/videocover/asset.go:79-87 | limits below one get the defaults |
| `AssetCache.Loader.Cached` | internal/videocover/asset.go:276-286 | hit exactly when the key is listed; the bytes are the ones stored under it and it becomes the latest |
| `AssetCache.Loader.Store` | internal/videocover/asset.go:288-312 | the list is the longest part of the order of use that fits, the new entry survives, an existing one is only moved |
| `AssetCache.Loader.Evict` | internal/videocover/asset.go:302-311 | the shortest least-recent part that suffices is dropped |
| `AssetCache.Loader.MoveToFront` | internal/videocover/asset.go:283-283 | the list stays a part of the order of use computed from the accesses alone |
| `AssetCache.CountMatches` | internal/videocover/asset.go:302-302 | the map has as many entries as the list |
| `ChunkWalk.PngHasChunk` | internal/videocover/asset.go:167-183 | true exactly for a type on the length-linked chain of a signed body |
| `ChunkWalk.WebPHasChunk` | internal/videocover/asset.go:185-202 | true exactly for a type on the padded length-linked chain of a signed body |
| `ChunkWalk.EncodedFileHasExactly` | internal/videocover/asset.go:167-202 | for every list of chunks the encoded file has a type exactly when the list does |
| `ChunkWalk.PngChunkSpelled` | internal/videocover/asset.go:167-183 | a chunk written byte by byte, big-endian length first, is found behind the signature |
| `ChunkWalk.WebPChunkSpelled` | internal/videocover/asset.go:185-202 | a chunk written byte by byte, type first, little-endian length and padding, is found behind the RIFF header |
| `ChunkWalk.NothingBeyond` | internal/videocover/asset.go:171-182 | when a chain cannot go on there is nothing more to find |

## Left out

- Packaging after a stop (`packageArchive`), reporting, upload and retention: external effects; the start model assumes that no packager is set.
- Real processes, sockets, FFmpeg, Opus and image decoding, clocks, contexts and the file system's permissions, links and syncing: they are arguments, or free choices of an outcome.
- Liveness of an abort within its five-second budget: a timeout is an early return at any wait. What a timed-out abort leaves is stated by `LostSlotExactly`.
- `StartManager.Manager.InstallLegacy`: a process killed on a failed legacy start is never installed and is not tracked.
- Identity fields of a commit or abort request: looking a preparation up by its start identity only narrows which record a step acts on.
- The preparation inside a tracked process is a value that the regions replace, not a second object.
- `MigrationPlanning.BuildPlan`: the entries come in no particular order, where the source sorts them by path; no property depends on the order.
- Constant fields of a plan: they are equal in every plan. The digest of a whole manifest is some function of the plan in it.
- Path cleaning (`filepath.Clean`) and escaping of the root: migration paths are lists of names. A directory in the place of a source fails to be renamed.
- `MigrationArchive.Archive.Rollback`: renames on the way back succeed wherever the tree allows them.
- Revisions of cover requests and feed versions are unbounded numbers; the watermark revision and the generation are 64-bit.
- `CoverRuntime.Tracked.ApplyVideoCover`: the shape of an asset descriptor is one predicate, and a request's fingerprint any function of the request. Keys are sequences of characters, so malformed UTF-8 in a key does not arise.
- `SpeakerPlayout.Speaker.NextFrame`: for a received packet the decoder answers no count from 2^62 on, which would end the program, see `UsableExactly`; for a lost packet it may answer any 64-bit count.
- Mixing speakers, the frame clock, idle eviction of speakers and the limiter: floating point, or single branches.
- The image feed's half-second repetition and write deadlines: the writer may turn or break at any time.
- `ImageSource.Source.Update`: re-encoding a PNG to a stable format happens before the frame is taken over.
- `TeeOutput.GetToken`: it follows FFmpeg's token rules as documented; FFmpeg's source is not part of this model.
- `AssetCache.Loader.Store`: fetching, hashing and decoding an asset, and two loads of one asset at a time.
- HTTP handlers, control-panel client, metrics, configuration, redaction and validators: plumbing or case lists.
