/** The commands one after the other, with a crash put at any point of the apply
    or of the restore. */
module MigrationRoundTrip {
  import opened Common
  import opened MigrationPlan
  import opened MigrationStates
  import opened MigrationTrace
  import opened MigrationSteps
  import opened MigrationPlanning
  import opened MigrationArchive

  /** A plan of this tree together with a backup of it. */
  ghost predicate Prepared(hash: Content -> Sha, origin: Tree, plan: seq<Entry>, artifact: Artifact) {
    && ValidPlan(plan) && PlannedFrom(hash, origin, plan) && Accepted(hash, artifact, plan)
    && BackupOf(origin, plan, artifact.dir)
  }

  method Prepare(archive: Archive, store: BackupStore) returns (plan: seq<Entry>, artifact: Artifact)
    requires archive.Valid() && store.Valid() && store.hash == archive.hash && !store.present
    modifies store
    ensures plan != [] ==> Prepared(archive.hash, archive.Now(), plan, artifact)
  {
    ghost var origin := archive.Now();
    var made := BuildPlan(archive.hash, Tree(archive.files, archive.dirs), true);
    artifact := Artifact(store.Dir(), archive.hash(""), 0);
    if made.None? {
      return [], artifact;
    }
    plan := made.value;
    var saved;
    saved, artifact := store.Backup(archive.files, plan, _ => NoBackupFault, ManifestWritten);
    if plan != [] {
      PlannedIsSeparate(archive.hash, origin, plan);
      PlannedIsPlaceable(archive.hash, origin, plan);
      BackupServesRestore(archive.hash, origin, plan, store.Dir());
    }
  }

  method ApplyPrepared(archive: Archive, plan: seq<Entry>, artifact: Artifact, faults: nat -> ApplyFault)
    returns (ok: bool)
    requires archive.Valid() && Prepared(archive.hash, archive.Now(), plan, artifact)
    modifies archive
    ensures archive.Valid() && old(archive.trace) <= archive.trace
    ensures !Unobstructed(plan) ==> !ok && archive.Now() == old(archive.Now()) && archive.trace == old(archive.trace)
    ensures Unobstructed(plan) ==> Sound(archive.hash, old(archive.Now()), plan)
    ensures Unobstructed(plan) ==>
              AllRecoverable(old(archive.Now()), plan, archive.trace, |old(archive.trace)| - 1, |archive.trace|)
    ensures Unobstructed(plan) ==> (ok <==> forall i | 0 <= i < |plan| :: faults(i).NoFault?)
    ensures ok ==> AllPlaced(archive.files, plan)
    ensures !ok ==> archive.files == old(archive.files)
  {
    ghost var origin := archive.Now();
    OriginPassesExactly(archive.hash, origin, plan, false);
    if Unobstructed(plan) {
      PlannedIsSound(archive.hash, origin, plan);
      OriginIsRecoverable(archive.hash, origin, plan);
      LineageIsShaped(archive.hash, origin, plan);
    }
    ok := archive.Apply(plan, artifact, faults, origin);
  }

  const NoFaults: nat -> RestoreFault := _ => NoRestoreFault

  lemma NothingHits(f: Files, plan: seq<Entry>)
    ensures forall i | 0 <= i < |plan| :: !Hits(NoFaults(i), f, plan[i])
  {
  }

  method RestoreCrash(hash: Content -> Sha, crash: Tree, plan: seq<Entry>, artifact: Artifact, ghost origin: Tree)
    returns (ok: bool, after: Tree)
    requires Lineage(hash, origin, plan, crash) && ValidPlan(plan) && Accepted(hash, artifact, plan)
    requires BackupOf(origin, plan, artifact.dir)
    ensures ok && after == origin
  {
    NothingHits(crash.files, plan);
    var rebooted := new Archive(hash, crash.files, crash.dirs);
    assert rebooted.Now() == crash;
    ok := rebooted.Restore(plan, artifact, NoFaults, origin);
    assert ok;
    after := Tree(rebooted.files, rebooted.dirs);
  }

  /** Plan, back up and apply, cut off with the tree `crash` on disk, and restore that
      tree: if the archive showed it at any time since, even before the first effect, it
      becomes the one the plan was made from. The apply may itself have failed at any
      entry and rolled back. */
  method CrashAndRestore(archive: Archive, store: BackupStore, faults: nat -> ApplyFault, crash: Tree)
    returns (plan: seq<Entry>, applied: bool, restored: bool, after: Tree)
    requires archive.Valid() && store.Valid() && store.hash == archive.hash && !store.present
    modifies archive, store
    ensures archive.Valid() && old(archive.trace) <= archive.trace
    ensures plan != [] && Unobstructed(plan) ==>
              && (forall k | |old(archive.trace)| - 1 <= k < |archive.trace| ::
                    archive.trace[k] == crash ==> restored && after == old(archive.Now()))
              && (applied <==> forall i | 0 <= i < |plan| :: faults(i).NoFault?)
              && (applied ==> AllPlaced(archive.files, plan))
    ensures plan != [] && !Unobstructed(plan) ==> !applied && archive.Now() == old(archive.Now())
  {
    applied, restored, after := false, false, crash;
    var origin := Tree(archive.files, archive.dirs);
    var artifact;
    plan, artifact := Prepare(archive, store);
    if plan == [] {
      return;
    }
    applied := ApplyPrepared(archive, plan, artifact, faults);
    if Unobstructed(plan) && Recoverable(origin, plan, crash) {
      restored, after := RestoreCrash(archive.hash, crash, plan, artifact, origin);
    }
  }

  /** A restore cut off after any effect but its last, and restored again: it becomes
      the original tree too. */
  method RestoreCutOff(archive: Archive, plan: seq<Entry>, artifact: Artifact, faults: nat -> RestoreFault,
                       origin: Tree, crash: Tree)
    returns (first: bool, restored: bool, after: Tree)
    requires archive.Valid() && Lineage(archive.hash, origin, plan, archive.Now())
    requires ValidPlan(plan) && Accepted(archive.hash, artifact, plan) && BackupOf(origin, plan, artifact.dir)
    modifies archive
    ensures archive.Valid() && old(archive.trace) <= archive.trace
    ensures forall k | |old(archive.trace)| - 1 <= k < |archive.trace| - 1 ::
              archive.trace[k] == crash ==> restored && after == origin
  {
    restored, after := false, crash;
    first := archive.Restore(plan, artifact, faults, origin);
    if Recoverable(origin, plan, crash) {
      restored, after := RestoreCrash(archive.hash, crash, plan, artifact, origin);
    }
  }

  /** Two archives of one origin, each with its own mix of pending and moved
      entries, end in the same tree; and a further apply changes nothing, even if
      every single effect would fail. */
  method AppliesAgree(a: Archive, b: Archive, plan: seq<Entry>, artifact: Artifact, fa: nat -> ApplyFault,
                      fb: nat -> ApplyFault, again: nat -> ApplyFault, ghost origin: Tree)
    returns (first: bool, second: bool, third: bool)
    requires a != b && a.hash == b.hash && a.Valid() && b.Valid()
    requires Lineage(a.hash, origin, plan, a.Now()) && Lineage(a.hash, origin, plan, b.Now())
    modifies a, b
    ensures first && second ==> third && a.Now() == b.Now()
  {
    first := a.Apply(plan, artifact, fa, origin);
    second := b.Apply(plan, artifact, fb, origin);
    ghost var placed := a.Now();
    third := a.Apply(plan, artifact, again, origin);
    if first && second {
      assert AllPlaced(placed.files, plan);
      PlacedTreeIsUnique(a.hash, origin, plan, placed, b.Now());
      PlacedTreeIsUnique(a.hash, origin, plan, a.Now(), b.Now());
    }
  }

  /** A second restore finds everything in place, whatever its effects would do. */
  method RestoreTwice(archive: Archive, plan: seq<Entry>, artifact: Artifact, faults: nat -> RestoreFault,
                      again: nat -> RestoreFault, ghost origin: Tree)
    returns (first: bool, second: bool)
    requires archive.Valid() && Lineage(archive.hash, origin, plan, archive.Now())
    requires BackupOf(origin, plan, artifact.dir)
    modifies archive
    ensures first ==> second && archive.Now() == origin
  {
    OriginIsRecoverable(archive.hash, origin, plan);
    first := archive.Restore(plan, artifact, faults, origin);
    second := archive.Restore(plan, artifact, again, origin);
  }

  /** Whoever tries a tree that fails preflight for restoring changes nothing. */
  method TryAgain(hash: Content -> Sha, left: Tree, plan: seq<Entry>, artifact: Artifact, again: nat -> RestoreFault,
                  retry: nat -> ApplyFault)
    returns (restored: bool, applied: bool, after: Tree)
    requires TreeOk(left) && !PreflightOk(hash, left, plan, true)
    ensures !restored && !applied && after == left
  {
    var archive := new Archive(hash, left.files, left.dirs);
    assert !PreflightOk(hash, left, plan, false) by {
      var i :| 0 <= i < |plan| && !EntryOk(hash, left, plan[i], true);
      assert !EntryOk(hash, left, plan[i], false);
    }
    restored := archive.Restore(plan, artifact, again, left);
    applied := archive.Apply(plan, artifact, retry, left);
    after := Tree(archive.files, archive.dirs);
  }

  function OneFileArtifact(hash: Content -> Sha, e: Entry, c: Content): Artifact {
    Artifact(BackupDir(Some([e]), map[e.backup := c], hash("")), hash(""), 1)
  }

  const TearEach: nat -> RestoreFault := _ => CopyTorn("")

  predicate TearableEntry(hash: Content -> Sha, e: Entry, c: Content) {
    && |e.source| == 3 && |e.destination| == 4 && Parent(Parent(e.destination)) == Parent(e.source)
    && Parent(e.destination) != e.source && e.backup != [] && |e.sha| == 64
    && !e.directoryExisted && !e.fileExisted && Matches(hash, c, e) && c != ""
  }

  lemma TornOneFile(hash: Content -> Sha, e: Entry, c: Content)
    requires TearableEntry(hash, e, c)
    ensures var artifact := OneFileArtifact(hash, e, c);
            && Lineage(hash, OneFile(e, c), [e], Tree(map[], OneFile(e, c).dirs))
            && ValidPlan([e]) && Accepted(hash, artifact, [e]) && BackupOf(OneFile(e, c), [e], artifact.dir)
            && TornAt(OneFile(e, c), [e], TearEach, map[], 0) && Hits(TearEach(0), map[], [e][0])
  {
    OneFileLost(hash, e, c);
    TornHits(OneFile(e, c), [e], TearEach, map[], 0);
  }

  lemma TornLeft(hash: Content -> Sha, e: Entry, c: Content, u: Tree)
    requires TearableEntry(hash, e, c) && Leaves(hash, OneFile(e, c), [e], TearEach, map[], u)
    ensures e.source in u.files && u.files[e.source] == "" && !PreflightOk(hash, u, [e], true)
  {
    TornOneFile(hash, e, c);
    assert [e][0] == e;
  }

  /** A restore of a lost file that is cut short in the middle of its copy. */
  method TearOnce(hash: Content -> Sha, e: Entry, c: Content) returns (ok: bool, left: Tree)
    requires TearableEntry(hash, e, c)
    ensures !ok && TreeOk(left) && e.source in left.files && left.files[e.source] == ""
    ensures !PreflightOk(hash, left, [e], true)
  {
    TornOneFile(hash, e, c);
    var archive := new Archive(hash, map[], {Parent(e.source), Parent(Parent(e.source))});
    ok := archive.Restore([e], OneFileArtifact(hash, e, c), TearEach, OneFile(e, c));
    left := Tree(archive.files, archive.dirs);
    TornLeft(hash, e, c, left);
  }

  /** ... blocks every later restore and apply, though the backup is whole. */
  method TornRestoreBlocks(hash: Content -> Sha, e: Entry, c: Content, again: nat -> RestoreFault,
                           retry: nat -> ApplyFault)
    returns (first: bool, second: bool, applied: bool, after: Tree)
    requires TearableEntry(hash, e, c)
    ensures !first && !second && !applied && e.source in after.files && after.files[e.source] == ""
  {
    var left;
    first, left := TearOnce(hash, e, c);
    second, applied, after := TryAgain(hash, left, [e], OneFileArtifact(hash, e, c), again, retry);
  }

  /** A backup that was tried before is accepted exactly when every object and a
      manifest that reads back as the plan had been written the first time, whether or
      not the first try reported success. */
  method RetryBackup(store: BackupStore, files: Files, plan: seq<Entry>, faults: nat -> BackupFault,
                     fault: ManifestFault, later: nat -> BackupFault, laterFault: ManifestFault)
    returns (first: bool, second: bool, artifact: Artifact)
    requires store.Valid() && !store.present && ValidPlan(plan)
    modifies store
    ensures second <==> SourcesMatch(store.hash, files, plan) && Placeable(plan)
                        && NoCopyFails(plan, faults) && !fault.ManifestUnreadable?
    ensures first <==> second && fault.ManifestWritten?
    ensures second ==> Accepted(store.hash, artifact, plan) && artifact.dir == store.Dir()
  {
    first, artifact := store.Backup(files, plan, faults, fault);
    second, artifact := store.Backup(files, plan, later, laterFault);
  }
}
