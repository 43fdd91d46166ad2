/** The migration commands over a file tree that they change in place. Every effect
    appends the new tree to `trace`, and nothing else changes the tree, so that a crash
    may be put after any effect; an operation may also fail at any entry, as its
    `faults` argument says. */
module MigrationArchive {
  import opened Common
  import opened MigrationPlan
  import opened MigrationStates
  import opened MigrationTrace
  import opened MigrationSteps

  class Archive {
    const hash: Content -> Sha
    var files: Files
    var dirs: set<Path>
    ghost var trace: seq<Tree>

    constructor (hash: Content -> Sha, files: Files, dirs: set<Path>)
      requires TreeOk(Tree(files, dirs))
      ensures this.hash == hash && this.files == files && this.dirs == dirs
      ensures Valid() && trace == [Now()]
    {
      this.hash, this.files, this.dirs, this.trace := hash, files, dirs, [Tree(files, dirs)];
    }

    ghost function Now(): Tree
      reads this
    {
      Tree(files, dirs)
    }

    /** The trace ends with the present tree and goes from tree to tree by one effect. */
    ghost predicate Valid()
      reads this
    {
      && TreeOk(Now())
      && trace != [] && trace[|trace| - 1] == Now()
      && Effects(trace)
    }

    // ----- The file system's own operations -----

    /** An atomic rename, which fails without a place to put the file. */
    method Rename(from: Path, to: Path) returns (ok: bool)
      requires Valid() && from != to
      modifies this`files, this`trace
      ensures Valid()
      ensures ok <==> from in old(files) && to !in dirs && to != [] && (|to| > 1 ==> Parent(to) in dirs)
      ensures ok ==> files == (old(files) - {from})[to := old(files)[from]]
      ensures !ok ==> files == old(files)
      ensures trace == if ok then old(trace) + [Now()] else old(trace)
    {
      ok := from in files && to !in dirs && to != [] && (|to| == 1 || Parent(to) in dirs);
      if ok {
        files := (files - {from})[to := files[from]];
        EffectsGrow(trace, Renamed(from, to), Now());
        trace := trace + [Now()];
      }
    }

    method MakeDir(d: Path)
      requires Valid() && d != [] && d !in files && d !in dirs && (|d| > 1 ==> Parent(d) in dirs)
      modifies this`dirs, this`trace
      ensures Valid()
      ensures dirs == old(dirs) + {d}
      ensures trace == old(trace) + [Now()]
    {
      dirs := dirs + {d};
      EffectsGrow(trace, Made(d), Now());
      trace := trace + [Now()];
    }

    /** Creates the missing directories of a path, or finds a file in the way. */
    method EnsureDir(d: Path, fails: bool, made: nat) returns (ok: bool)
      requires Valid()
      modifies this`dirs, this`trace
      ensures Valid()
      ensures ok <==> !fails && forall k | 0 < k <= |d| :: d[..k] !in files
      ensures ok ==> dirs == old(dirs) + Ancestors(d, |d|)
      ensures old(dirs) <= dirs <= old(dirs) + Ancestors(d, |d|)
      ensures old(trace) <= trace && DirSteps(trace, |old(trace)|, |trace|, files, old(dirs), dirs)
    {
      var n := 0;
      while n < |d|
        invariant 0 <= n <= |d| && Valid()
        invariant dirs == old(dirs) + Ancestors(d, n)
        invariant forall k | 0 < k <= n :: d[..k] !in files
        invariant old(trace) <= trace && DirSteps(trace, |old(trace)|, |trace|, files, old(dirs), dirs)
      {
        assert Ancestors(d, n) <= Ancestors(d, |d|);
        if (fails && n == made) || d[..n + 1] in files {
          return false;
        }
        assert Parent(d[..n + 1]) == d[..n];
        assert n > 0 ==> d[..n] in Ancestors(d, n);
        assert Ancestors(d, n + 1) == Ancestors(d, n) + {d[..n + 1]};
        if d[..n + 1] !in dirs {
          MakeDir(d[..n + 1]);
        }
        n := n + 1;
      }
      ok := !fails;
    }

    // ----- Preflight and verification -----

    method Preflight(plan: seq<Entry>, restoring: bool) returns (ok: bool)
      ensures ok <==> PreflightOk(hash, Now(), plan, restoring)
    {
      for i := 0 to |plan|
        invariant forall j | 0 <= j < i :: EntryOk(hash, Now(), plan[j], restoring)
      {
        var source := ProbeFile(plan[i].source, plan[i]);
        var destination := ProbeFile(plan[i].destination, plan[i]);
        if source.Clash? || destination.Clash? {
          return false;
        }
        if destination.Match? && (source.Match? || plan[i].fileExisted) {
          return false;
        }
        if !source.Match? && !destination.Match? && !restoring {
          return false;
        }
      }
      return true;
    }

    method ProbeFile(p: Path, e: Entry) returns (r: Presence)
      ensures r == Probe(hash, Now(), p, e)
      ensures r.Absent? <==> (forall k | 0 < k < |p| :: p[..k] !in files) && p !in dirs && p !in files
      ensures r.Match? <==>
                && (forall k | 0 < k < |p| :: p[..k] !in files)
                && p !in dirs && p in files && |files[p]| == e.size && hash(files[p]) == e.sha
    {
      var n := 1;
      while n < |p|
        invariant 1 <= n && (n <= |p| || p == [])
        invariant forall k | 0 < k < n && k < |p| :: p[..k] !in files
      {
        if p[..n] in files {
          return Clash;
        }
        n := n + 1;
      }
      if p in dirs {
        return Clash;
      }
      if p !in files {
        return Absent;
      }
      return if |files[p]| == e.size && hash(files[p]) == e.sha then Match else Clash;
    }

    method VerifyInputs(plan: seq<Entry>, artifact: Artifact, live: bool) returns (ok: bool)
      ensures ok
           <==> ValidPlan(plan) && Accepted(hash, artifact, plan) && (live ==> PreflightOk(hash, Now(), plan, false))
    {
      if !ValidPlan(plan) || !Accepted(hash, artifact, plan) {
        return false;
      }
      if live {
        ok := Preflight(plan, false);
      } else {
        ok := true;
      }
    }

    /** Succeeds exactly on the placement of every entry. */
    method Verify(plan: seq<Entry>, artifact: Artifact) returns (ok: bool)
      ensures ok <==> ValidPlan(plan) && Accepted(hash, artifact, plan)
                      && forall i | 0 <= i < |plan| :: Landed(hash, Now(), plan[i])
      ensures ok ==> forall i | 0 <= i < |plan| ::
                && plan[i].destination in files && |files[plan[i].destination]| == plan[i].size
                && hash(files[plan[i].destination]) == plan[i].sha
                && plan[i].source !in files && plan[i].source !in dirs
    {
      ok := VerifyInputs(plan, artifact, false);
      if !ok {
        return;
      }
      var postCount, orphanCount := 0, 0;
      for i := 0 to |plan|
        invariant 0 <= postCount <= i && 0 <= orphanCount
        invariant postCount == i && orphanCount == 0 <==> forall j | 0 <= j < i :: Landed(hash, Now(), plan[j])
      {
        if plan[i].destination in files && |files[plan[i].destination]| == plan[i].size
           && hash(files[plan[i].destination]) == plan[i].sha {
          postCount := postCount + 1;
        } else {
          orphanCount := orphanCount + 1;
        }
        if plan[i].source in files || plan[i].source in dirs {
          orphanCount := orphanCount + 1;
        }
      }
      ok := postCount == |plan| && orphanCount == 0;
    }

    // ----- Cleaning up and rolling back -----

    method RemoveDir(d: Path)
      requires Valid()
      modifies this`dirs, this`trace
      ensures Valid()
      ensures dirs == if d in old(dirs) && EmptyDir(files, old(dirs), d) then old(dirs) - {d} else old(dirs)
      ensures trace == if dirs == old(dirs) then old(trace) else old(trace) + [Now()]
    {
      if d in dirs && EmptyDir(files, dirs, d) {
        forall p | |p| > 1 && (p in files || p in dirs) ensures Parent(p) != d {
          assert Parent(p) == d ==> ChildOf(p, d);
        }
        dirs := dirs - {d};
        EffectsGrow(trace, Removed(d), Now());
        trace := trace + [Now()];
      }
    }

    predicate Longest(d: Path, ds: set<Path>) {
      d in ds && forall x | x in ds :: |x| <= |d|
    }

    lemma LongestOfBoth(one: Path, d: Path, rest: set<Path>)
      requires Longest(d, rest)
      ensures Longest(if |d| < |one| then one else d, rest + {one})
    {
    }

    lemma LongestExists(ds: set<Path>)
      requires ds != {}
      ensures exists d :: Longest(d, ds)
    {
      var one :| one in ds;
      var rest := ds - {one};
      assert ds == rest + {one};
      if rest == {} {
        assert Longest(one, ds);
      } else {
        LongestExists(rest);
        var d :| Longest(d, rest);
        LongestOfBoth(one, d, rest);
      }
    }

    lemma EmptyStaysEmpty(f: Files, dirs: set<Path>, fewer: set<Path>, d: Path)
      requires fewer <= dirs && EmptyDir(f, dirs, d)
      ensures EmptyDir(f, fewer, d)
    {
    }

    /** Every one of `done` that was empty to begin with has been removed. */
    predicate EmptiesGone(f: Files, before: set<Path>, now: set<Path>, done: set<Path>) {
      forall d | d in done :: EmptyDir(f, before, d) ==> d !in now
    }

    lemma OneMoreGone(f: Files, before: set<Path>, now: set<Path>, after: set<Path>, done: set<Path>, d: Path)
      requires EmptiesGone(f, before, now, done) && now <= before
      requires after == if d in now && EmptyDir(f, now, d) then now - {d} else now
      ensures EmptiesGone(f, before, after, done + {d})
    {
      if EmptyDir(f, before, d) {
        EmptyStaysEmpty(f, before, now, d);
      }
    }

    /** Removes the run directories of these entries that have become empty. */
    method CleanupDirectories(entries: seq<Entry>)
      requires Valid() && Routed(entries)
      modifies this`dirs, this`trace
      ensures Valid()
      ensures old(dirs) - RunDirs(entries) <= dirs <= old(dirs)
      ensures EmptiesGone(files, old(dirs), dirs, RunDirs(entries))
      ensures old(trace) <= trace
      ensures DirSteps(trace, |old(trace)|, |trace|, files, old(dirs) - RunDirs(entries), old(dirs))
    {
      var rest := RunDirs(entries);
      while rest != {}
        invariant Valid() && rest <= RunDirs(entries)
        invariant old(dirs) - RunDirs(entries) <= dirs <= old(dirs)
        invariant EmptiesGone(files, old(dirs), dirs, RunDirs(entries) - rest)
        invariant old(trace) <= trace
        invariant DirSteps(trace, |old(trace)|, |trace|, files, old(dirs) - RunDirs(entries), old(dirs))
      {
        LongestExists(rest);
        var d :| d in rest && Longest(d, rest);
        ghost var now := dirs;
        RemoveDir(d);
        OneMoreGone(files, old(dirs), now, dirs, RunDirs(entries) - rest, d);
        assert RunDirs(entries) - (rest - {d}) == (RunDirs(entries) - rest) + {d};
        rest := rest - {d};
      }
    }

    lemma LastMove(before: Files, moved: seq<Entry>, index: nat)
      requires index < |moved| && MovesOk(before, moved[..index + 1])
      ensures MovesOk(before, moved[..index])
      ensures moved[index].source in MoveAll(before, moved[..index])
      ensures moved[index].destination !in MoveAll(before, moved[..index])
      ensures MoveAll(before, moved[..index + 1]) == Move(MoveAll(before, moved[..index]), moved[index])
    {
      assert moved[..index + 1][..index] == moved[..index];
    }

    /** A rollback that still has the first `index` moves to undo. `able` and `ours`
        say what the caller knows. */
    ghost predicate Unwinding(moved: seq<Entry>, index: nat, before: Files, able: bool, ours: bool, origin: Tree,
                              plan: seq<Entry>, from: nat)
      reads this
    {
      && Valid() && Routed(plan) && index <= |moved| && MovesOk(before, moved[..index])
      && (able ==> files == MoveAll(before, moved[..index]))
      && (ours ==> Recoverable(origin, plan, Now()) && AllRecoverable(origin, plan, trace, from, |trace|))
    }

    method RenameBack(moved: seq<Entry>, index: nat, ghost before: Files, ghost able: bool, ghost ours: bool,
                      ghost origin: Tree, ghost plan: seq<Entry>)
      requires Valid() && Routed(plan) && index < |moved| && MovesOk(before, moved[..index + 1])
      requires able ==> files == MoveAll(before, moved[..index + 1]) && CanReturn(moved, dirs)
      requires ours ==> able && moved[index] in plan && Lineage(hash, origin, plan, Now())
      modifies this`files, this`trace
      ensures Valid() && MovesOk(before, moved[..index])
      ensures able ==> files == MoveAll(before, moved[..index])
      ensures trace == old(trace) || trace == old(trace) + [Now()]
      ensures ours ==> Recoverable(origin, plan, Now())
    {
      LastMove(before, moved, index);
      var e := moved[index];
      MoveUndone(MoveAll(before, moved[..index]), e);
      ghost var prior := Now();
      var ok := Rename(e.destination, e.source);
      if ours {
        ghost var i :| 0 <= i < |plan| && plan[i] == e;
        assert EntryAt(origin, prior.files, plan[i]);
        ReturnStaysRecoverable(hash, origin, plan, prior, i, prior.files[e.destination]);
      }
    }

    method UnwindOne(moved: seq<Entry>, index: nat, ghost before: Files, ghost able: bool, ghost ours: bool,
                     ghost origin: Tree, ghost plan: seq<Entry>, ghost from: nat)
      requires index < |moved| && Unwinding(moved, index + 1, before, able, ours, origin, plan, from)
      requires able ==> CanReturn(moved, dirs)
      requires ours ==> able && moved[index] in plan && Sound(hash, origin, plan)
      modifies this`files, this`trace
      ensures Unwinding(moved, index, before, able, ours, origin, plan, from)
      ensures old(trace) <= trace
    {
      RenameBack(moved, index, before, able, ours, origin, plan);
      if ours {
        RecoverableStep(origin, plan, old(trace), trace, from, Now());
      }
    }

    /** Renames the moved entries back, last one first. */
    method RenameAllBack(moved: seq<Entry>, ghost before: Files, ghost able: bool, ghost ours: bool, ghost origin: Tree,
                         ghost plan: seq<Entry>, ghost from: nat)
      requires Unwinding(moved, |moved|, before, able, ours, origin, plan, from)
      requires able ==> CanReturn(moved, dirs)
      requires ours ==> able && (forall e | e in moved :: e in plan) && Sound(hash, origin, plan)
      modifies this`files, this`trace
      ensures Unwinding(moved, 0, before, able, ours, origin, plan, from)
      ensures old(trace) <= trace
    {
      var index := |moved|;
      while index > 0
        invariant 0 <= index <= |moved| && old(trace) <= trace
        invariant Unwinding(moved, index, before, able, ours, origin, plan, from)
      {
        index := index - 1;
        UnwindOne(moved, index, before, able, ours, origin, plan, from);
      }
    }

    method Rollback(moved: seq<Entry>, ghost before: Files, ghost origin: Tree, ghost plan: seq<Entry>, ghost from: nat)
      requires Valid() && Routed(moved) && Routed(plan) && from < |trace|
      requires MovesOk(before, moved) && files == MoveAll(before, moved)
      modifies this
      ensures Valid() && dirs <= old(dirs) && old(trace) <= trace
      ensures CanReturn(moved, old(dirs)) ==> files == before
      ensures EmptiesGone(files, old(dirs), dirs, RunDirs(moved))
      ensures CanReturn(moved, old(dirs)) && (forall e | e in moved :: e in plan) && Sound(hash, origin, plan)
              && AllRecoverable(origin, plan, old(trace), from, |old(trace)|)
              ==> AllRecoverable(origin, plan, trace, from, |trace|)
    {
      ghost var able := CanReturn(moved, dirs);
      ghost var ours := able && (forall e | e in moved :: e in plan) && Sound(hash, origin, plan)
                        && AllRecoverable(origin, plan, trace, from, |trace|);
      assert moved[..|moved|] == moved && moved[..0] == [];
      RenameAllBack(moved, before, able, ours, origin, plan, from);
      ghost var returned, earlier := Now(), trace;
      CleanupDirectories(moved);
      if ours {
        CleanupVisits(hash, origin, plan, returned, moved, trace, |earlier|, |trace|);
        RecoverableJoin(origin, plan, earlier, trace, from, |trace|);
      }
    }

    lemma CleanupStaysRecoverable(origin: Tree, plan: seq<Entry>, t: Tree, entries: seq<Entry>, u: Tree)
      requires Routed(plan) && Routed(entries) && Recoverable(origin, plan, t)
      requires forall i | 0 <= i < |plan| :: Fits(origin, plan[i])
      requires forall e | e in entries :: e in plan
      requires u.files == t.files && TreeOk(u) && t.dirs - RunDirs(entries) <= u.dirs <= t.dirs
      ensures Recoverable(origin, plan, u)
    {
      forall d | d in RunDirs(entries) ensures d !in origin.dirs {
        var k :| 0 <= k < |entries| && !entries[k].directoryExisted && d == Parent(entries[k].destination);
        assert entries[k] in plan;
        var i :| 0 <= i < |plan| && plan[i] == entries[k];
        assert Fits(origin, plan[i]);
      }
      DirsStayRecoverable(origin, plan, t, u.dirs);
    }

    lemma CleanupVisits(hash: Content -> Sha, origin: Tree, plan: seq<Entry>, t: Tree, entries: seq<Entry>,
                        trace: seq<Tree>, from: nat, to: nat)
      requires Lineage(hash, origin, plan, t) && Routed(plan) && Routed(entries) && to <= |trace|
      requires forall e | e in entries :: e in plan
      requires DirSteps(trace, from, to, t.files, t.dirs - RunDirs(entries), t.dirs)
      ensures AllRecoverable(origin, plan, trace, from, to)
    {
      forall k | from <= k < to ensures Recoverable(origin, plan, trace[k]) {
        CleanupStaysRecoverable(origin, plan, t, entries, trace[k]);
      }
    }

    // ----- Apply -----

    /** Moves one entry unless it is already in place. */
    method ApplyEntry(e: Entry, fault: ApplyFault) returns (r: EntryOutcome)
      requires Valid() && e.destination != []
      modifies this
      ensures Valid()
      ensures r == EntryResult(hash, old(Now()), e, fault)
      ensures r.JustMoved? ==> e.source in old(files) && e.destination !in old(files) && files == Move(old(files), e)
      ensures !r.JustMoved? ==> files == old(files)
      ensures r.AlreadyThere? ==> dirs == old(dirs) && trace == old(trace)
      ensures old(dirs) <= dirs <= old(dirs) + Ancestors(Parent(e.destination), |e.destination| - 1)
      ensures r.JustMoved? ==> dirs == old(dirs) + Ancestors(Parent(e.destination), |e.destination| - 1)
      ensures old(trace) <= trace && DirSteps(trace, |old(trace)|, |trace| - 1, old(files), old(dirs), dirs)
    {
      if e.source !in files && e.source !in dirs {
        return if e.destination in files && |files[e.destination]| == e.size && hash(files[e.destination]) == e.sha
               then AlreadyThere else Stopped;
      }
      if e.destination in files || e.destination in dirs {
        return Stopped;
      }
      assert forall k | 0 < k < |e.destination| :: Parent(e.destination)[..k] == e.destination[..k];
      var made := EnsureDir(Parent(e.destination), fault.MkdirFails?, if fault.MkdirFails? then fault.made else 0);
      if !made || fault.RenameFails? || e.source !in files {
        return Stopped;
      }
      assert |e.destination| > 1 ==> Parent(e.destination)[..|e.destination| - 1] in dirs;
      var renamed := Rename(e.source, e.destination);
      return if renamed then JustMoved else Stopped;
    }

    /** An apply that can still be rolled back and has come as far as entry `i`. */
    ghost predicate Reached(plan: seq<Entry>, i: nat, faults: nat -> ApplyFault, moved: seq<Entry>, before: Tree,
                            able: bool, ours: bool)
      reads this
    {
      && (able ==> Ready(plan, i, moved, before, Now()))
      && (ours ==> Progress(plan, i, faults, before.files, Now()))
    }

    method ApplyOne(plan: seq<Entry>, i: nat, faults: nat -> ApplyFault, moved: seq<Entry>, ghost before: Tree,
                    ghost origin: Tree, ghost able: bool, ghost ours: bool, ghost from: nat)
      returns (failed: bool, next: seq<Entry>)
      requires Valid() && i < |plan| && Returnable(plan, moved, before, Now(), able)
      requires Reached(plan, i, faults, moved, before, able, ours)
      requires able ==> Shaped(plan) && PreflightOk(hash, before, plan, false)
      requires ours ==> Sound(hash, origin, plan) && OursSoFar(plan, origin, Now(), trace, from)
      modifies this
      ensures Valid() && old(trace) <= trace && Returnable(plan, next, before, Now(), able)
      ensures ours ==> OursSoFar(plan, origin, Now(), trace, from)
      ensures !failed ==> Reached(plan, i + 1, faults, next, before, able, ours)
      ensures failed && ours ==> !(NothingLost(before.files, plan) && FaultFree(plan, faults, before.files))
    {
      ghost var t := Now();
      var outcome := ApplyEntry(plan[i], faults(i));
      failed := outcome.Stopped? || (outcome.JustMoved? && faults(i).HookFails?);
      next := if outcome.JustMoved? then moved + [plan[i]] else moved;
      MoveRecorded(hash, plan, i, moved, before, t, Now(), faults(i), outcome, old(trace), trace);
      if able {
        ReadyRecorded(hash, plan, i, moved, before, t, Now(), faults(i), outcome, old(trace), trace);
      }
      if ours {
        OurEntry(hash, origin, plan, i, faults, before.files, t, Now(), outcome, old(trace), trace, from);
      }
    }

    /** Moves the entries one by one until one fails. */
    method ApplyEach(plan: seq<Entry>, faults: nat -> ApplyFault, ghost before: Tree, ghost origin: Tree,
                     ghost able: bool, ghost ours: bool, ghost from: nat)
      returns (ok: bool, moved: seq<Entry>)
      requires Valid() && Returnable(plan, [], before, Now(), able) && Reached(plan, 0, faults, [], before, able, ours)
      requires able ==> Shaped(plan) && PreflightOk(hash, before, plan, false)
      requires ours ==> Sound(hash, origin, plan) && OursSoFar(plan, origin, Now(), trace, from)
      modifies this
      ensures Valid() && old(trace) <= trace && Returnable(plan, moved, before, Now(), able)
      ensures ours ==> OursSoFar(plan, origin, Now(), trace, from)
      ensures ok ==> Reached(plan, |plan|, faults, moved, before, able, ours)
      ensures ours && !ok ==> !(NothingLost(before.files, plan) && FaultFree(plan, faults, before.files))
    {
      moved := [];
      for i := 0 to |plan|
        invariant Valid() && old(trace) <= trace && Returnable(plan, moved, before, Now(), able)
        invariant ours ==> OursSoFar(plan, origin, Now(), trace, from)
        invariant Reached(plan, i, faults, moved, before, able, ours)
      {
        var failed, next := ApplyOne(plan, i, faults, moved, before, origin, able, ours, from);
        moved := next;
        if failed {
          return false, moved;
        }
      }
      ok := true;
    }

    /** Keeps the placement when it can be verified, and rolls it back otherwise. */
    method FinishApply(plan: seq<Entry>, artifact: Artifact, reached: bool, moved: seq<Entry>, ghost before: Tree,
                       ghost origin: Tree, ghost able: bool, ghost ours: bool, ghost from: nat)
      returns (ok: bool)
      requires Valid() && from < |trace| && Returnable(plan, moved, before, Now(), able)
      requires ours ==> able && Sound(hash, origin, plan) && OursSoFar(plan, origin, Now(), trace, from)
      requires ours ==> ValidPlan(plan) && Accepted(hash, artifact, plan)
      requires ours && reached ==> AllPlaced(files, plan)
      modifies this
      ensures Valid() && old(trace) <= trace
      ensures ok ==> reached && Accepted(hash, artifact, plan) && files == old(files)
      ensures ok ==> forall i | 0 <= i < |plan| :: Landed(hash, Now(), plan[i])
      ensures able && !ok ==> files == before.files
      ensures ours ==> (ok <==> reached) && AllRecoverable(origin, plan, trace, from, |trace|)
    {
      ok := reached;
      if ok {
        ok := Verify(plan, artifact);
        if ours {
          AllLanded(hash, origin, plan, Now());
        }
      }
      if !ok {
        Rollback(moved, before.files, origin, plan, from);
      }
    }

    /** Moves every legacy file to its run directory, or changes no file.
        `origin` is the tree the plan was made from, when there is one. */
    method Apply(plan: seq<Entry>, artifact: Artifact, faults: nat -> ApplyFault, ghost origin: Tree) returns (ok: bool)
      requires Valid()
      modifies this
      ensures Valid() && old(trace) <= trace
      ensures !(ValidPlan(plan) && Accepted(hash, artifact, plan) && old(PreflightOk(hash, Now(), plan, false)))
              ==> !ok && Now() == old(Now()) && trace == old(trace)
      ensures ok ==> Accepted(hash, artifact, plan) && forall i | 0 <= i < |plan| :: Landed(hash, Now(), plan[i])
      ensures Shaped(plan) && !ok ==> files == old(files)
      ensures old(Lineage(hash, origin, plan, Now())) ==>
                && (ok <==> ValidPlan(plan) && Accepted(hash, artifact, plan)
                            && NothingLost(old(files), plan) && FaultFree(plan, faults, old(files)))
                && (ok ==> AllPlaced(files, plan))
                && AllRecoverable(origin, plan, trace, |old(trace)| - 1, |trace|)
    {
      ghost var before, able, ours := Now(), Shaped(plan), Lineage(hash, origin, plan, Now());
      ok := VerifyInputs(plan, artifact, true);
      if ours {
        LineageIsShaped(hash, origin, plan);
        RecoverablePasses(hash, origin, plan, before, false);
      }
      if !ok {
        return;
      }
      var moved;
      ok, moved := ApplyEach(plan, faults, before, origin, able, ours, |old(trace)| - 1);
      ok := FinishApply(plan, artifact, ok, moved, before, origin, able, ours, |old(trace)| - 1);
    }

    // ----- Restore -----

    /** Creates a file that must not exist yet. */
    method Create(p: Path, c: Content) returns (ok: bool)
      requires Valid()
      modifies this`files, this`trace
      ensures Valid()
      ensures ok <==> p !in old(files) && p !in dirs && p != [] && (|p| > 1 ==> Parent(p) in dirs)
      ensures ok ==> files == old(files)[p := c]
      ensures !ok ==> files == old(files)
      ensures trace == if ok then old(trace) + [Now()] else old(trace)
    {
      ok := p !in files && p !in dirs && p != [] && (|p| == 1 || Parent(p) in dirs);
      if ok {
        files := files[p := c];
        EffectsGrow(trace, Created(p, c), Now());
        trace := trace + [Now()];
      }
    }

    /** Copies a verified backup object to a missing source. */
    method CopyBack(e: Entry, saved: Content, fault: RestoreFault) returns (ok: bool)
      requires Valid() && e.source != []
      modifies this`files, this`trace
      ensures Valid() && (trace == old(trace) || trace == old(trace) + [Now()])
      ensures ok ==> files == old(files)[e.source := saved]
      ensures e.source !in old(files) && e.source !in dirs && (|e.source| > 1 ==> Parent(e.source) in dirs) ==>
                && (ok <==> Matches(hash, saved, e) && !fault.CopyFails? && !fault.CopyTorn?)
                && (!ok && Matches(hash, saved, e) ==>
                      files == if fault.CopyTorn? then old(files)[e.source := fault.partial] else old(files))
    {
      if |saved| != e.size || hash(saved) != e.sha || fault.CopyFails? {
        return false;
      }
      if fault.CopyTorn? {
        ok := Create(e.source, fault.partial);
        return false;
      }
      ok := Create(e.source, saved);
    }

    /** Brings one source back from its destination or from the backup. */
    method RestoreEntry(e: Entry, saved: Content, fault: RestoreFault) returns (ok: bool)
      requires Valid() && e.source != []
      modifies this
      ensures Valid() && old(trace) <= trace
      ensures old(e.source in files && Matches(hash, files[e.source], e)) ==>
                ok && Now() == old(Now()) && trace == old(trace)
      ensures old(Reachable(Now(), e) && e.source !in files) ==>
                && BroughtBack(hash, old(Now()), Now(), e, saved, fault, ok)
                && DirSteps(trace, |old(trace)|, |trace| - 1, old(files), old(dirs), dirs)
    {
      if e.source in files || e.source in dirs {
        return e.source in files && |files[e.source]| == e.size && hash(files[e.source]) == e.sha;
      }
      ghost var d := Parent(e.source);
      assert d[..|d|] == d;
      var made := EnsureDir(Parent(e.source), fault.DirFails?, if fault.DirFails? then fault.made else 0);
      if !made {
        return false;
      }
      ok := Retrieve(e, saved, fault);
    }

    /** Renames the moved file back or copies its backup object, into a place that is free. */
    method Retrieve(e: Entry, saved: Content, fault: RestoreFault) returns (ok: bool)
      requires Valid() && e.source != [] && e.source !in files && e.source !in dirs && !fault.DirFails?
      modifies this`files, this`trace
      ensures Valid() && (trace == old(trace) || trace == old(trace) + [Now()])
      ensures e.destination !in dirs && (|e.source| > 1 ==> Parent(e.source) in dirs) ==>
                && (ok <==> !Hits(fault, old(files), e) && Matches(hash, Available(old(files), e, saved), e))
                && (ok ==> files == PutBack(old(files), e, Available(old(files), e, saved)))
                && (!ok && Matches(hash, saved, e) ==>
                      files ==
                      if Tears(fault, old(files), e) then old(files)[e.source := fault.partial] else old(files))
    {
      if e.destination in files || e.destination in dirs {
        if e.destination !in files || |files[e.destination]| != e.size || hash(files[e.destination]) != e.sha
           || fault.ReturnFails? {
          return false;
        }
        ok := Rename(e.destination, e.source);
      } else {
        ok := CopyBack(e, saved, fault);
      }
    }

    /** A restore of a recoverable tree that has come as far as entry `i`. */
    ghost predicate Restoring(plan: seq<Entry>, i: nat, faults: nat -> RestoreFault, before: Files, origin: Tree,
                              from: nat)
      reads this
      requires Routed(plan)
    {
      OursSoFar(plan, origin, Now(), trace, from) && Returned(plan, i, faults, before, Now())
    }

    method RestoreOne(plan: seq<Entry>, i: nat, artifact: Artifact, faults: nat -> RestoreFault, ghost before: Files,
                      ghost origin: Tree, ghost ours: bool, ghost from: nat)
      returns (ok: bool)
      requires Valid() && i < |plan| && plan[i].source != [] && plan[i].backup in artifact.dir.objects && Routed(plan)
      requires ours ==> Restoring(plan, i, faults, before, origin, from)
      requires ours ==> Sound(hash, origin, plan) && BackupOf(origin, plan, artifact.dir)
      modifies this
      ensures Valid() && old(trace) <= trace
      ensures ok && ours ==> Restoring(plan, i + 1, faults, before, origin, from)
      ensures ours && !ok ==> Hits(faults(i), before, plan[i]) && Leaves(hash, origin, plan, faults, before, Now())
      ensures ours ==> AllRecoverable(origin, plan, trace, from, |trace| - 1)
    {
      ghost var t := Now();
      if ours {
        OurSource(hash, origin, plan, t, i);
      }
      ok := RestoreEntry(plan[i], artifact.dir.objects[plan[i].backup], faults(i));
      if ours {
        OurRestored(hash, origin, plan, i, faults, before, t, Now(), artifact.dir.objects[plan[i].backup], ok,
                    old(trace), trace, from);
      }
    }

    /** Brings the sources back in turn until one fails. */
    method RestoreEach(plan: seq<Entry>, artifact: Artifact, faults: nat -> RestoreFault, ghost origin: Tree,
                       ghost ours: bool, ghost from: nat)
      returns (ok: bool)
      requires ValidPlan(plan) && Accepted(hash, artifact, plan)
      requires Valid() && (ours ==> Restoring(plan, 0, faults, files, origin, from))
      requires ours ==> Sound(hash, origin, plan) && BackupOf(origin, plan, artifact.dir)
      modifies this
      ensures Valid() && old(trace) <= trace
      ensures ok && ours ==> Restoring(plan, |plan|, faults, old(files), origin, from)
      ensures ours && !ok ==> exists i | 0 <= i < |plan| :: Hits(faults(i), old(files), plan[i])
      ensures ours && !ok ==>
                && AllRecoverable(origin, plan, trace, from, |trace| - 1)
                && Leaves(hash, origin, plan, faults, old(files), Now())
    {
      ghost var before := files;
      for i := 0 to |plan|
        invariant Valid() && old(trace) <= trace
        invariant ours ==> Restoring(plan, i, faults, before, origin, from)
      {
        ok := RestoreOne(plan, i, artifact, faults, before, origin, ours, from);
        if !ok {
          return;
        }
      }
      ok := true;
    }

    /** Brings every source back, and finishes when none failed. */
    method RestoreAll(plan: seq<Entry>, artifact: Artifact, faults: nat -> RestoreFault, ghost origin: Tree,
                      ghost ours: bool, ghost from: nat)
      returns (ok: bool)
      requires ValidPlan(plan) && Accepted(hash, artifact, plan)
      requires Valid() && (ours ==> Restoring(plan, 0, faults, files, origin, from))
      requires ours ==> Sound(hash, origin, plan) && BackupOf(origin, plan, artifact.dir)
      modifies this
      ensures Valid() && old(trace) <= trace
      ensures ok ==> forall i | 0 <= i < |plan| :: Stored(hash, files, plan[i].source, plan[i])
      ensures ours ==>
                && (ok <==> forall i | 0 <= i < |plan| :: !Hits(faults(i), old(files), plan[i]))
                && (ok ==> Now() == origin)
                && AllRecoverable(origin, plan, trace, from, |trace| - 1)
                && Leaves(hash, origin, plan, faults, old(files), Now())
    {
      ghost var before := files;
      ok := RestoreEach(plan, artifact, faults, origin, ours, from);
      if !ok {
        return;
      }
      ok := FinishRestore(plan, origin, ours, from);
      if ours {
        DoneLeaves(hash, origin, plan, faults, before, Now());
      }
    }

    /** Puts every file back where the plan found it, from its run directory or
        from the backup. All read-only checks come before the first change. */
    method Restore(plan: seq<Entry>, artifact: Artifact, faults: nat -> RestoreFault, ghost origin: Tree)
      returns (ok: bool)
      requires Valid()
      modifies this
      ensures Valid() && old(trace) <= trace
      ensures !(ValidPlan(plan) && Accepted(hash, artifact, plan) && old(PreflightOk(hash, Now(), plan, true)))
              ==> !ok && Now() == old(Now()) && trace == old(trace)
      ensures ok ==> forall i | 0 <= i < |plan| :: Stored(hash, files, plan[i].source, plan[i])
      ensures old(Lineage(hash, origin, plan, Now())) && BackupOf(origin, plan, artifact.dir) ==>
                && (ok <==> ValidPlan(plan) && Accepted(hash, artifact, plan)
                            && forall i | 0 <= i < |plan| :: !Hits(faults(i), old(files), plan[i]))
                && (ok ==> Now() == origin)
                && AllRecoverable(origin, plan, trace, |old(trace)| - 1, |trace| - 1)
                && (if ValidPlan(plan) && Accepted(hash, artifact, plan)
                    then Leaves(hash, origin, plan, faults, old(files), Now()) else Recoverable(origin, plan, Now()))
    {
      ghost var before := Now();
      ghost var ours := Lineage(hash, origin, plan, Now()) && BackupOf(origin, plan, artifact.dir);
      ok := VerifyInputs(plan, artifact, false);
      if ours {
        RecoverablePasses(hash, origin, plan, before, true);
      }
      if !ok {
        return;
      }
      ok := Preflight(plan, true);
      if ok {
        ok := RestoreAll(plan, artifact, faults, origin, ours, |old(trace)| - 1);
      }
    }

    /** Checks every source once more and drops the emptied run directories. */
    method FinishRestore(plan: seq<Entry>, ghost origin: Tree, ghost ours: bool, ghost from: nat) returns (ok: bool)
      requires Valid() && Routed(plan)
      requires ours ==> Lineage(hash, origin, plan, Now()) && AllPending(files, plan)
      requires ours ==> AllRecoverable(origin, plan, trace, from, |trace|)
      modifies this`dirs, this`trace
      ensures Valid() && old(trace) <= trace
      ensures ok ==> forall i | 0 <= i < |plan| :: Stored(hash, files, plan[i].source, plan[i])
      ensures ours ==> ok && Now() == origin && Recoverable(origin, plan, Now())
      ensures ours ==> AllRecoverable(origin, plan, trace, from, |trace|)
    {
      for i := 0 to |plan|
        invariant forall j | 0 <= j < i :: Stored(hash, files, plan[j].source, plan[j])
      {
        if ours {
          assert Pending(files, plan[i]) && EntryAt(origin, files, plan[i]);
          assert Matches(hash, origin.files[plan[i].source], plan[i]);
        }
        if plan[i].source !in files || |files[plan[i].source]| != plan[i].size
           || hash(files[plan[i].source]) != plan[i].sha {
          return false;
        }
      }
      ghost var t := Now();
      if ours {
        AllPendingIsOrigin(hash, origin, plan, t);
        RunDirsEmpty(hash, origin, plan, t);
      }
      CleanupDirectories(plan);
      if ours {
        assert dirs == origin.dirs;
        OriginIsRecoverable(hash, origin, plan);
        CleanupVisits(hash, origin, plan, t, plan, trace, |old(trace)|, |trace|);
        RecoverableJoin(origin, plan, old(trace), trace, from, |trace|);
      }
      ok := true;
    }
  }
}
