/** What single file-system effects of apply and restore do to a tree. */
module MigrationSteps {
  import opened Common
  import opened MigrationPlan
  import opened MigrationStates
  import opened MigrationTrace

  /** Making directories may fail with the first `made` of them on the way done. */
  datatype ApplyFault = NoFault | MkdirFails(made: nat) | RenameFails | HookFails

  /** A copy may fail before it creates the file or leave a torn file behind. */
  datatype RestoreFault = NoRestoreFault | DirFails(made: nat) | ReturnFails | CopyFails | CopyTorn(partial: Content)

  /** The first `n` directories on the way down a path. */
  function Ancestors(d: Path, n: nat): set<Path>
    requires n <= |d|
  {
    set k | 0 < k <= n :: d[..k]
  }

  /** The layout every planned entry has, whatever the tree looks like now. */
  predicate Shaped(plan: seq<Entry>) {
    && Separate(plan)
    && forall i | 0 <= i < |plan| :: |plan[i].source| == 3 && |plan[i].destination| == 4
                                    && Parent(Parent(plan[i].destination)) == Parent(plan[i].source)
  }

  predicate Stored(hash: Content -> Sha, f: Files, p: Path, e: Entry) {
    p in f && Matches(hash, f[p], e)
  }

  /** The placement that Verify accepts. */
  predicate Landed(hash: Content -> Sha, t: Tree, e: Entry) {
    Stored(hash, t.files, e.destination, e) && e.source !in t.files && e.source !in t.dirs
  }

  datatype EntryOutcome = AlreadyThere | JustMoved | Stopped

  /** How one entry of an apply comes out, read off the tree it starts from. */
  function EntryResult(hash: Content -> Sha, t: Tree, e: Entry, fault: ApplyFault): EntryOutcome
    requires e.destination != []
  {
    if e.source !in t.files && e.source !in t.dirs
    then if Stored(hash, t.files, e.destination, e) then AlreadyThere else Stopped
    else if e.destination in t.files || e.destination in t.dirs || Blocked(t, e.destination)
    then Stopped
    else if fault.MkdirFails? || fault.RenameFails? || e.source !in t.files
    then Stopped
    else JustMoved
  }

  /** One entry of an apply has led from tree `t` to tree `u`. */
  ghost predicate EntryDid(hash: Content -> Sha, t: Tree, u: Tree, e: Entry, fault: ApplyFault, r: EntryOutcome,
                           earlier: seq<Tree>, trace: seq<Tree>)
    requires e.destination != []
  {
    var way := Ancestors(Parent(e.destination), |e.destination| - 1);
    && r == EntryResult(hash, t, e, fault)
    && (r.JustMoved? ==> e.source in t.files && e.destination !in t.files && u.files == Move(t.files, e))
    && (!r.JustMoved? ==> u.files == t.files)
    && (r.JustMoved? ==> u.dirs == t.dirs + way)
    && (r.AlreadyThere? ==> u == t && trace == earlier)
    && t.dirs <= u.dirs <= t.dirs + way
    && earlier <= trace && trace != [] && trace[|trace| - 1] == u
    && DirSteps(trace, |earlier|, |trace| - 1, t.files, t.dirs, u.dirs)
  }

  predicate CanReturn(moved: seq<Entry>, dirs: set<Path>) {
    forall k | 0 <= k < |moved| :: |moved[k].source| == 3 && moved[k].source !in dirs && Parent(moved[k].source) in dirs
  }

  predicate ChildOf(p: Path, d: Path) { |p| == |d| + 1 && p[..|d|] == d }

  predicate EmptyDir(f: Files, dirs: set<Path>, d: Path) {
    && (forall p :: p in f ==> !ChildOf(p, d))
    && (forall q :: q in dirs ==> !ChildOf(q, d))
  }

  // ----- One entry of an apply -----

  /** Everything moved so far can go back, and the rest is as it was. */
  ghost predicate Ready(plan: seq<Entry>, i: nat, moved: seq<Entry>, before: Tree, t: Tree) {
    && CanReturn(moved, t.dirs)
    && (forall k | 0 <= k < |moved| :: moved[k].source in before.files)
    && (forall j | i <= j < |plan| :: Unmoved(before.files, t.files, plan[j]))
  }

  predicate Unmoved(f: Files, g: Files, e: Entry) {
    (e.source in g <==> e.source in f) && (e.destination in g <==> e.destination in f)
  }

  /** Preflight saw no file where a run directory has to be. */
  lemma RunDirFree(hash: Content -> Sha, t: Tree, plan: seq<Entry>, i: nat)
    requires Shaped(plan) && PreflightOk(hash, t, plan, false) && i < |plan|
    ensures Parent(plan[i].destination) !in t.files
  {
    assert EntryOk(hash, t, plan[i], false);
    assert plan[i].destination[..3] == Parent(plan[i].destination);
  }

  lemma StillReturns(hash: Content -> Sha, plan: seq<Entry>, i: nat, moved: seq<Entry>, before: Tree, t: Tree, u: Tree)
    requires Shaped(plan) && PreflightOk(hash, before, plan, false) && i < |plan| && Ready(plan, i, moved, before, t)
    requires t.dirs <= u.dirs <= t.dirs + Ancestors(Parent(plan[i].destination), 3)
    ensures CanReturn(moved, u.dirs)
  {
    RunDirFree(hash, before, plan, i);
    var d := Parent(plan[i].destination);
    assert d[..3] == d;
    forall k | 0 <= k < |moved| ensures moved[k].source !in u.dirs {
      assert moved[k].source in before.files && |moved[k].source| == 3 && moved[k].source != d;
    }
  }

  lemma ReadyAfterMove(hash: Content -> Sha, plan: seq<Entry>, i: nat, moved: seq<Entry>, before: Tree, t: Tree,
                       u: Tree)
    requires Shaped(plan) && PreflightOk(hash, before, plan, false) && i < |plan| && Ready(plan, i, moved, before, t)
    requires TreeOk(t) && t.dirs <= u.dirs <= t.dirs + Ancestors(Parent(plan[i].destination), 3)
    requires plan[i].source in t.files && u.files == Move(t.files, plan[i])
    ensures Ready(plan, i + 1, moved + [plan[i]], before, u)
  {
    assert Unmoved(before.files, t.files, plan[i]);
    assert Ready(plan, i, moved + [plan[i]], before, t);
    StillReturns(hash, plan, i, moved + [plan[i]], before, t, u);
    forall j | i + 1 <= j < |plan| ensures Unmoved(before.files, u.files, plan[j]) {
      assert Unmoved(before.files, t.files, plan[j]);
      EntriesApartIn(plan, i, j);
    }
  }

  /** Only the run directory itself is new on the way to a destination. */
  lemma OnlyRunDirNew(origin: Tree, e: Entry)
    requires TreeOk(origin) && Fits(origin, e)
    ensures Ancestors(Parent(e.destination), 3) <= origin.dirs + {Parent(e.destination)}
    ensures Ancestors(Parent(e.source), 2) <= origin.dirs
  {
    OriginWay(origin, e);
    var d := Parent(e.destination);
    assert d[..2] == e.source[..2] && d[..1] == e.source[..1] && d[..3] == d;
    assert Parent(e.source)[..2] == e.source[..2] && Parent(e.source)[..1] == e.source[..1];
  }

  /** Making the run directory of an entry, or part of the way to it. */
  lemma RunDirStaysRecoverable(hash: Content -> Sha, origin: Tree, plan: seq<Entry>, t: Tree, i: nat, u: Tree)
    requires Lineage(hash, origin, plan, t) && i < |plan|
    requires u.files == t.files && TreeOk(u) && t.dirs <= u.dirs <= t.dirs + Ancestors(Parent(plan[i].destination), 3)
    ensures Recoverable(origin, plan, u)
  {
    PlacesFree(hash, origin, plan, t, i);
    OnlyRunDirNew(origin, plan[i]);
    assert Parent(plan[i].destination) in origin.dirs + RunDirs(plan);
    DirsStayRecoverable(origin, plan, t, u.dirs);
  }

  lemma LineageIsShaped(hash: Content -> Sha, origin: Tree, plan: seq<Entry>)
    requires Sound(hash, origin, plan)
    ensures Shaped(plan)
  {
    forall i | 0 <= i < |plan| ensures |plan[i].source| == 3 && |plan[i].destination| == 4
                                      && Parent(Parent(plan[i].destination)) == Parent(plan[i].source)
    {
      assert Fits(origin, plan[i]);
    }
  }

  /** In a recoverable tree only a fault or a lost entry stops an apply. */
  lemma EntryResultExact(hash: Content -> Sha, origin: Tree, plan: seq<Entry>, t: Tree, i: nat, fault: ApplyFault)
    requires Lineage(hash, origin, plan, t) && i < |plan| && plan[i].destination != []
    ensures EntryResult(hash, t, plan[i], fault)
         == if Pending(t.files, plan[i]) then if fault.MkdirFails? || fault.RenameFails? then Stopped else JustMoved
            else if Placed(t.files, plan[i]) then AlreadyThere else Stopped
    ensures Placed(t.files, plan[i]) ==> Landed(hash, t, plan[i])
  {
    PlacesFree(hash, origin, plan, t, i);
    NothingBlocks(hash, origin, plan, t, i);
    assert Matches(hash, origin.files[plan[i].source], plan[i]);
  }

  // ----- A whole apply -----

  /** What has become of a recoverable tree after the first `i` entries. */
  ghost predicate Progress(plan: seq<Entry>, i: nat, faults: nat -> ApplyFault, before: Files, t: Tree) {
    && (forall j | 0 <= j < i && j < |plan| :: Placed(t.files, plan[j]))
    && (forall j | 0 <= j < i && j < |plan| :: Pending(before, plan[j]) ==> faults(j).NoFault?)
    && (forall j | i <= j < |plan| :: Unmoved(before, t.files, plan[j]))
  }

  /** Nothing went wrong at an entry that still had to move. */
  predicate FaultFree(plan: seq<Entry>, faults: nat -> ApplyFault, before: Files) {
    forall j | 0 <= j < |plan| :: Pending(before, plan[j]) ==> faults(j).NoFault?
  }

  lemma ProgressAfterMove(hash: Content -> Sha, origin: Tree, plan: seq<Entry>, i: nat, faults: nat -> ApplyFault,
                          before: Files, t: Tree, u: Tree)
    requires Lineage(hash, origin, plan, t) && i < |plan| && Progress(plan, i, faults, before, t)
    requires plan[i].source in t.files && u.files == Move(t.files, plan[i]) && TreeOk(u)
    requires u.dirs == t.dirs + Ancestors(Parent(plan[i].destination), 3)
    ensures Recoverable(origin, plan, u)
    ensures faults(i).NoFault? ==> Progress(plan, i + 1, faults, before, u)
  {
    PlacesFree(hash, origin, plan, t, i);
    var d := Parent(plan[i].destination);
    assert d == d[..3];
    var made := Tree(t.files, u.dirs);
    MadeDirsOk(t, plan[i], u);
    RunDirStaysRecoverable(hash, origin, plan, t, i, made);
    MoveStaysRecoverable(hash, origin, plan, made, i);
    if faults(i).NoFault? {
      ProgressPastMove(plan, i, faults, before, t, u);
    }
  }

  lemma ProgressPastMove(plan: seq<Entry>, i: nat, faults: nat -> ApplyFault, before: Files, t: Tree, u: Tree)
    requires Separate(plan) && i < |plan| && Progress(plan, i, faults, before, t) && faults(i).NoFault?
    requires plan[i].source in t.files && u.files == Move(t.files, plan[i])
    ensures Progress(plan, i + 1, faults, before, u)
  {
    forall j | 0 <= j < |plan| && j != i ensures Placed(t.files, plan[j]) ==> Placed(u.files, plan[j])
      ensures Unmoved(before, t.files, plan[j]) ==> Unmoved(before, u.files, plan[j])
    {
      EntriesApartIn(plan, i, j);
    }
  }

  lemma MadeDirsOk(t: Tree, e: Entry, u: Tree)
    requires TreeOk(t) && TreeOk(u) && e.source in t.files && u.files == Move(t.files, e) && t.dirs <= u.dirs
    requires e.source !in u.dirs
    ensures TreeOk(Tree(t.files, u.dirs))
  {
  }

  lemma AllLanded(hash: Content -> Sha, origin: Tree, plan: seq<Entry>, t: Tree)
    requires Lineage(hash, origin, plan, t) && AllPlaced(t.files, plan)
    ensures forall i | 0 <= i < |plan| :: Landed(hash, t, plan[i])
  {
    forall i | 0 <= i < |plan| ensures Landed(hash, t, plan[i]) {
      assert Placed(t.files, plan[i]) && Fits(origin, plan[i]);
      EntryResultExact(hash, origin, plan, t, i, NoFault);
    }
  }

  predicate EntryFailed(outcome: EntryOutcome, fault: ApplyFault) {
    outcome.Stopped? || (outcome.JustMoved? && fault.HookFails?)
  }

  /** The trees visited before an entry's last effect only gained directories. */
  lemma VisitedRecoverable(hash: Content -> Sha, origin: Tree, plan: seq<Entry>, t: Tree, i: nat, hi: set<Path>,
                           trace: seq<Tree>, from: nat, to: nat)
    requires Lineage(hash, origin, plan, t) && i < |plan| && Fits(origin, plan[i]) && to <= |trace|
    requires hi <= t.dirs + Ancestors(Parent(plan[i].destination), 3) && DirSteps(trace, from, to, t.files, t.dirs, hi)
    ensures AllRecoverable(origin, plan, trace, from, to)
  {
    forall k | from <= k < to ensures Recoverable(origin, plan, trace[k]) {
      RunDirStaysRecoverable(hash, origin, plan, t, i, trace[k]);
    }
  }

  lemma ProgressInPlace(plan: seq<Entry>, i: nat, faults: nat -> ApplyFault, before: Files, t: Tree)
    requires i < |plan| && Progress(plan, i, faults, before, t) && Placed(t.files, plan[i])
    ensures Progress(plan, i + 1, faults, before, t)
  {
    assert Unmoved(before, t.files, plan[i]);
  }

  /** One entry of an apply over a recoverable tree. */
  lemma OurOutcome(hash: Content -> Sha, origin: Tree, plan: seq<Entry>, i: nat, faults: nat -> ApplyFault,
                   before: Files, t: Tree, u: Tree, outcome: EntryOutcome)
    requires Lineage(hash, origin, plan, t) && i < |plan| && Progress(plan, i, faults, before, t) && TreeOk(u)
    requires plan[i].destination != [] && outcome == EntryResult(hash, t, plan[i], faults(i))
    requires outcome.JustMoved? ==> plan[i].source in t.files && u.files == Move(t.files, plan[i])
    requires !outcome.JustMoved? ==> u.files == t.files
    requires t.dirs <= u.dirs <= t.dirs + Ancestors(Parent(plan[i].destination), |plan[i].destination| - 1)
    requires outcome.AlreadyThere? ==> u == t
    requires outcome.JustMoved? ==> u.dirs == t.dirs + Ancestors(Parent(plan[i].destination), |plan[i].destination| - 1)
    ensures Recoverable(origin, plan, u)
    ensures if EntryFailed(outcome, faults(i))
            then Gone(before, plan[i]) || (Pending(before, plan[i]) && !faults(i).NoFault?)
            else Progress(plan, i + 1, faults, before, u)
  {
    assert Fits(origin, plan[i]) && Unmoved(before, t.files, plan[i]);
    EntryResultExact(hash, origin, plan, t, i, faults(i));
    if outcome.JustMoved? {
      ProgressAfterMove(hash, origin, plan, i, faults, before, t, u);
    } else {
      RunDirStaysRecoverable(hash, origin, plan, t, i, u);
      if outcome.AlreadyThere? {
        ProgressInPlace(plan, i, faults, before, t);
      }
    }
  }

  /** ... and everything it passed through on the way to its last tree. */
  lemma OurVisits(hash: Content -> Sha, origin: Tree, plan: seq<Entry>, i: nat, t: Tree, u: Tree, earlier: seq<Tree>,
                  trace: seq<Tree>, from: nat)
    requires Lineage(hash, origin, plan, t) && i < |plan| && Recoverable(origin, plan, u) && |plan[i].destination| == 4
    requires t.dirs <= u.dirs <= t.dirs + Ancestors(Parent(plan[i].destination), 3)
    requires earlier <= trace && trace != [] && trace[|trace| - 1] == u
    requires DirSteps(trace, |earlier|, |trace| - 1, t.files, t.dirs, u.dirs)
    requires AllRecoverable(origin, plan, earlier, from, |earlier|)
    ensures AllRecoverable(origin, plan, trace, from, |trace|)
  {
    assert Fits(origin, plan[i]);
    VisitedRecoverable(hash, origin, plan, t, i, u.dirs, trace, |earlier|, |trace| - 1);
    RecoverableLast(origin, plan, trace, |earlier|, u);
    RecoverableJoin(origin, plan, earlier, trace, from, |trace|);
  }

  /** An apply that began at `before` and has come to `t` can still be rolled back. */
  ghost predicate Returnable(plan: seq<Entry>, moved: seq<Entry>, before: Tree, t: Tree, able: bool) {
    && Routed(moved) && Routed(plan) && (forall e | e in moved :: e in plan)
    && MovesOk(before.files, moved) && t.files == MoveAll(before.files, moved)
    && (able ==> CanReturn(moved, t.dirs))
  }

  /** ... and so can a crash, since the start of the apply. */
  ghost predicate OursSoFar(plan: seq<Entry>, origin: Tree, t: Tree, trace: seq<Tree>, from: nat)
    requires Routed(plan)
  {
    Recoverable(origin, plan, t) && AllRecoverable(origin, plan, trace, from, |trace|)
  }

  function MovedBy(moved: seq<Entry>, e: Entry, r: EntryOutcome): seq<Entry> {
    if r.JustMoved? then moved + [e] else moved
  }

  lemma MoveRecorded(hash: Content -> Sha, plan: seq<Entry>, i: nat, moved: seq<Entry>, before: Tree, t: Tree, u: Tree,
                     fault: ApplyFault, outcome: EntryOutcome, earlier: seq<Tree>, trace: seq<Tree>)
    requires i < |plan| && Returnable(plan, moved, before, t, false)
    requires EntryDid(hash, t, u, plan[i], fault, outcome, earlier, trace)
    ensures Returnable(plan, MovedBy(moved, plan[i], outcome), before, u, false)
  {
    if outcome.JustMoved? {
      MoveOneMore(before.files, moved, plan[i]);
    }
  }

  lemma ReadyRecorded(hash: Content -> Sha, plan: seq<Entry>, i: nat, moved: seq<Entry>, before: Tree, t: Tree, u: Tree,
                      fault: ApplyFault, outcome: EntryOutcome, earlier: seq<Tree>, trace: seq<Tree>)
    requires i < |plan| && Shaped(plan) && PreflightOk(hash, before, plan, false) && TreeOk(t)
    requires Ready(plan, i, moved, before, t) && plan[i].destination != []
    requires EntryDid(hash, t, u, plan[i], fault, outcome, earlier, trace)
    ensures CanReturn(MovedBy(moved, plan[i], outcome), u.dirs)
    ensures !outcome.Stopped? ==> Ready(plan, i + 1, MovedBy(moved, plan[i], outcome), before, u)
  {
    StillReturns(hash, plan, i, moved, before, t, u);
    if outcome.JustMoved? {
      ReadyAfterMove(hash, plan, i, moved, before, t, u);
    }
  }

  lemma OurEntry(hash: Content -> Sha, origin: Tree, plan: seq<Entry>, i: nat, faults: nat -> ApplyFault, before: Files,
                 t: Tree, u: Tree, outcome: EntryOutcome, earlier: seq<Tree>, trace: seq<Tree>, from: nat)
    requires i < |plan| && Routed(plan) && Sound(hash, origin, plan) && TreeOk(u)
    requires OursSoFar(plan, origin, t, earlier, from) && Progress(plan, i, faults, before, t)
    requires EntryDid(hash, t, u, plan[i], faults(i), outcome, earlier, trace)
    ensures OursSoFar(plan, origin, u, trace, from)
    ensures if EntryFailed(outcome, faults(i))
            then Gone(before, plan[i]) || (Pending(before, plan[i]) && !faults(i).NoFault?)
            else Progress(plan, i + 1, faults, before, u)
  {
    assert Fits(origin, plan[i]);
    OurOutcome(hash, origin, plan, i, faults, before, t, u, outcome);
    OurVisits(hash, origin, plan, i, t, u, earlier, trace, from);
  }

  // ----- Restore -----

  /** The bytes a restore puts back at the source of an entry. */
  function Available(f: Files, e: Entry, saved: Content): Content {
    if e.destination in f then f[e.destination] else saved
  }

  /** No file stands on the way to the source, and nothing in its place. */
  predicate Reachable(t: Tree, e: Entry) {
    && 1 < |e.source| <= |e.destination|
    && (forall k | 0 < k < |e.source| :: Parent(e.source)[..k] !in t.files)
    && e.source !in t.dirs && e.destination !in t.dirs
  }

  /** The fault strikes an entry that has to be brought back. */
  predicate Hits(fault: RestoreFault, f: Files, e: Entry) {
    e.source !in f
    && (fault.DirFails? || (if e.destination in f then fault.ReturnFails? else fault.CopyFails? || fault.CopyTorn?))
  }

  /** A copy of the entry from the backup is cut short. */
  predicate Tears(fault: RestoreFault, f: Files, e: Entry) {
    fault.CopyTorn? && e.source !in f && e.destination !in f
  }

  /** The restore stops at entry `i`, leaving bytes that are not the original ones. */
  predicate TornAt(origin: Tree, plan: seq<Entry>, faults: nat -> RestoreFault, before: Files, i: nat) {
    && i < |plan| && Tears(faults(i), before, plan[i])
    && plan[i].source in origin.files && faults(i).partial != origin.files[plan[i].source]
    && forall j | 0 <= j < i :: !Hits(faults(j), before, plan[j])
  }

  /** The backup was taken from the original tree. */
  predicate BackupOf(origin: Tree, plan: seq<Entry>, b: BackupDir) {
    forall i | 0 <= i < |plan| :: plan[i].source in origin.files && plan[i].backup in b.objects
                                  && b.objects[plan[i].backup] == origin.files[plan[i].source]
  }

  ghost predicate Returned(plan: seq<Entry>, i: nat, faults: nat -> RestoreFault, before: Files, t: Tree) {
    && (forall j | 0 <= j < i && j < |plan| :: Pending(t.files, plan[j]))
    && (forall j | 0 <= j < i && j < |plan| :: !Hits(faults(j), before, plan[j]))
    && (forall j | i <= j < |plan| :: Unmoved(before, t.files, plan[j]))
  }

  /** Bringing one entry back leaves the other entries alone. */
  lemma ReturnedPast(plan: seq<Entry>, i: nat, faults: nat -> RestoreFault, before: Files, t: Tree, u: Tree, c: Content)
    requires Separate(plan) && i < |plan| && Returned(plan, i, faults, before, t) && !Hits(faults(i), before, plan[i])
    requires if plan[i].source in t.files then u.files == t.files else u.files == PutBack(t.files, plan[i], c)
    ensures Returned(plan, i + 1, faults, before, u)
  {
    forall j | 0 <= j < |plan| && j != i
      ensures Pending(t.files, plan[j]) ==> Pending(u.files, plan[j])
      ensures Unmoved(before, t.files, plan[j]) ==> Unmoved(before, u.files, plan[j])
    {
      EntriesApartIn(plan, i, j);
    }
  }

  lemma ReturnedOneMore(hash: Content -> Sha, origin: Tree, plan: seq<Entry>, i: nat, faults: nat -> RestoreFault,
                        before: Files, t: Tree, u: Tree)
    requires Lineage(hash, origin, plan, t) && i < |plan| && Returned(plan, i, faults, before, t)
    requires !Hits(faults(i), before, plan[i]) && u.dirs == t.dirs
    requires if plan[i].source in t.files then u.files == t.files
             else u.files == PutBack(t.files, plan[i], origin.files[plan[i].source]) && Parent(plan[i].source) in t.dirs
    ensures Recoverable(origin, plan, u) && Returned(plan, i + 1, faults, before, u)
  {
    ReturnedPast(plan, i, faults, before, t, u, origin.files[plan[i].source]);
    if plan[i].source !in t.files {
      ReturnStaysRecoverable(hash, origin, plan, t, i, origin.files[plan[i].source]);
    }
  }

  /** The tree with every directory above the source made. */
  function Widened(t: Tree, e: Entry): Tree
    requires e.source != []
  {
    Tree(t.files, t.dirs + Ancestors(Parent(e.source), |e.source| - 1))
  }

  lemma WayStaysRecoverable(hash: Content -> Sha, origin: Tree, plan: seq<Entry>, t: Tree, i: nat, u: Tree)
    requires Lineage(hash, origin, plan, t) && i < |plan|
    requires u.files == t.files && TreeOk(u) && t.dirs <= u.dirs <= t.dirs + Ancestors(Parent(plan[i].source), 2)
    ensures Recoverable(origin, plan, u)
  {
    assert Fits(origin, plan[i]);
    OnlyRunDirNew(origin, plan[i]);
    DirsStayRecoverable(origin, plan, t, u.dirs);
  }

  lemma WidenedOk(t: Tree, e: Entry)
    requires TreeOk(t) && |e.source| == 3 && e.source[..1] !in t.files && e.source[..2] !in t.files
    ensures TreeOk(Widened(t, e)) && Parent(e.source) in Widened(t, e).dirs
  {
    var d := Parent(e.source);
    assert d[..2] == d == e.source[..2] && d[..1] == e.source[..1] && Parent(d) == d[..1];
    assert Ancestors(d, 2) == {d[..1], d[..2]};
  }

  lemma WidenedIsRecoverable(hash: Content -> Sha, origin: Tree, plan: seq<Entry>, t: Tree, i: nat)
    requires Lineage(hash, origin, plan, t) && i < |plan| && plan[i].source != []
    ensures Recoverable(origin, plan, Widened(t, plan[i])) && Parent(plan[i].source) in Widened(t, plan[i]).dirs
  {
    assert Fits(origin, plan[i]);
    OriginWay(origin, plan[i]);
    DirIsNoFile(hash, origin, plan, t, plan[i].source[..1]);
    DirIsNoFile(hash, origin, plan, t, plan[i].source[..2]);
    WidenedOk(t, plan[i]);
    WayStaysRecoverable(hash, origin, plan, t, i, Widened(t, plan[i]));
  }

  lemma WayRecoverable(hash: Content -> Sha, origin: Tree, plan: seq<Entry>, t: Tree, i: nat, hi: set<Path>,
                       trace: seq<Tree>, from: nat, to: nat)
    requires Lineage(hash, origin, plan, t) && i < |plan| && to <= |trace| && plan[i].source != []
    requires hi <= Widened(t, plan[i]).dirs && DirSteps(trace, from, to, t.files, t.dirs, hi)
    ensures AllRecoverable(origin, plan, trace, from, to)
  {
    assert Fits(origin, plan[i]);
    forall k | from <= k < to ensures Recoverable(origin, plan, trace[k]) {
      WayStaysRecoverable(hash, origin, plan, t, i, trace[k]);
    }
  }

  lemma SourceReachable(t: Tree, e: Entry)
    requires |e.source| == 3 && |e.destination| == 4 && !Blocked(t, e.source)
    requires e.source !in t.dirs && e.destination !in t.dirs
    ensures Reachable(t, e)
  {
    forall k | 0 < k < |e.source| ensures Parent(e.source)[..k] !in t.files {
      assert Parent(e.source)[..k] == e.source[..k];
    }
  }

  /** What restoring an absent source comes to. */
  predicate BroughtBack(hash: Content -> Sha, t: Tree, u: Tree, e: Entry, saved: Content, fault: RestoreFault, ok: bool)
    requires e.source != []
  {
    var c, wide := Available(t.files, e, saved), Widened(t, e);
    && t.dirs <= u.dirs <= wide.dirs
    && (ok <==> !Hits(fault, t.files, e) && Matches(hash, c, e))
    && (ok ==> u == Tree(PutBack(t.files, e, c), wide.dirs))
    && (!ok && Matches(hash, saved, e) ==>
          if Tears(fault, t.files, e) then u == Overwritten(wide, e, fault.partial) else u.files == t.files)
  }

  /** A source was there already, or it was brought back, over these trees. */
  ghost predicate EntryReturned(hash: Content -> Sha, t: Tree, u: Tree, e: Entry, saved: Content, fault: RestoreFault,
                                ok: bool, earlier: seq<Tree>, trace: seq<Tree>)
    requires e.source != []
  {
    && (if e.source in t.files then ok && u == t && trace == earlier else BroughtBack(hash, t, u, e, saved, fault, ok))
    && earlier <= trace && trace != [] && trace[|trace| - 1] == u
    && DirSteps(trace, |earlier|, |trace| - 1, t.files, t.dirs, u.dirs)
  }

  lemma OurSource(hash: Content -> Sha, origin: Tree, plan: seq<Entry>, t: Tree, i: nat)
    requires Lineage(hash, origin, plan, t) && i < |plan|
    ensures Reachable(t, plan[i])
    ensures plan[i].source in t.files ==> Matches(hash, t.files[plan[i].source], plan[i])
    ensures plan[i].source in origin.files && Matches(hash, origin.files[plan[i].source], plan[i])
    ensures plan[i].destination in t.files ==> t.files[plan[i].destination] == origin.files[plan[i].source]
  {
    PlacesFree(hash, origin, plan, t, i);
    NothingBlocks(hash, origin, plan, t, i);
    SourceReachable(t, plan[i]);
    assert Matches(hash, origin.files[plan[i].source], plan[i]);
  }

  /** The tree with other bytes put at a source. */
  function Overwritten(t: Tree, e: Entry, partial: Content): Tree {
    Tree(t.files[e.source := partial], t.dirs)
  }

  lemma PutBackOverAbsent(f: Files, e: Entry, c: Content)
    requires e.destination !in f
    ensures PutBack(f, e, c) == f[e.source := c]
  {
  }

  /** A torn copy that happens to be whole. */
  lemma WholeStaysRecoverable(hash: Content -> Sha, origin: Tree, plan: seq<Entry>, t: Tree, i: nat)
    requires Lineage(hash, origin, plan, t) && i < |plan| && Gone(t.files, plan[i]) && plan[i].source in origin.files
    requires plan[i].source != [] && Parent(plan[i].source) in t.dirs
    ensures Recoverable(origin, plan, Overwritten(t, plan[i], origin.files[plan[i].source]))
  {
    var c := origin.files[plan[i].source];
    ReturnStaysRecoverable(hash, origin, plan, t, i, c);
    PutBackOverAbsent(t.files, plan[i], c);
  }

  lemma TornIsLost(origin: Tree, plan: seq<Entry>, u: Tree, i: nat)
    requires Routed(plan) && i < |plan| && plan[i].source in u.files && plan[i].source in origin.files
    requires u.files[plan[i].source] != origin.files[plan[i].source]
    ensures !Recoverable(origin, plan, u)
  {
    assert !EntryAt(origin, u.files, plan[i]);
  }

  /** Over the tree with the way to its source made, or over one that has the source. */
  lemma OurReturnDone(hash: Content -> Sha, origin: Tree, plan: seq<Entry>, i: nat, faults: nat -> RestoreFault,
                      before: Files, t: Tree, u: Tree, saved: Content)
    requires Lineage(hash, origin, plan, t) && i < |plan| && Returned(plan, i, faults, before, t)
    requires plan[i].source != [] && saved == origin.files[plan[i].source]
    requires if plan[i].source in t.files then u == t else BroughtBack(hash, t, u, plan[i], saved, faults(i), true)
    ensures Recoverable(origin, plan, u) && Returned(plan, i + 1, faults, before, u)
  {
    OurSource(hash, origin, plan, t, i);
    assert Unmoved(before, t.files, plan[i]);
    if plan[i].source in t.files {
      ReturnedOneMore(hash, origin, plan, i, faults, before, t, u);
    } else {
      WidenedIsRecoverable(hash, origin, plan, t, i);
      ReturnedOneMore(hash, origin, plan, i, faults, before, Widened(t, plan[i]), u);
    }
  }

  lemma OurReturn(hash: Content -> Sha, origin: Tree, plan: seq<Entry>, i: nat, faults: nat -> RestoreFault,
                  before: Files, t: Tree, u: Tree, saved: Content, ok: bool)
    requires Lineage(hash, origin, plan, t) && i < |plan| && Returned(plan, i, faults, before, t) && TreeOk(u)
    requires plan[i].source != [] && saved == origin.files[plan[i].source]
    requires if plan[i].source in t.files then ok && u == t
             else BroughtBack(hash, t, u, plan[i], saved, faults(i), ok)
    ensures ok ==> Returned(plan, i + 1, faults, before, u)
    ensures !ok ==> Hits(faults(i), before, plan[i])
    ensures Recoverable(origin, plan, u) <==> !TornAt(origin, plan, faults, before, i)
    ensures TornAt(origin, plan, faults, before, i) ==>
              !ok && Gone(t.files, plan[i]) && u == Overwritten(Widened(t, plan[i]), plan[i], faults(i).partial)
  {
    OurSource(hash, origin, plan, t, i);
    WidenedIsRecoverable(hash, origin, plan, t, i);
    assert Unmoved(before, t.files, plan[i]);
    var wide := Widened(t, plan[i]);
    if ok {
      OurReturnDone(hash, origin, plan, i, faults, before, t, u, saved);
    } else if Tears(faults(i), t.files, plan[i]) {
      assert u == Overwritten(wide, plan[i], faults(i).partial);
      if faults(i).partial == origin.files[plan[i].source] {
        WholeStaysRecoverable(hash, origin, plan, wide, i);
      } else {
        TornIsLost(origin, plan, u, i);
      }
    } else {
      assert Fits(origin, plan[i]);
      WayStaysRecoverable(hash, origin, plan, t, i, u);
    }
  }

  lemma OurWay(hash: Content -> Sha, origin: Tree, plan: seq<Entry>, i: nat, t: Tree, u: Tree, earlier: seq<Tree>,
               trace: seq<Tree>, from: nat)
    requires i < |plan| && plan[i].source != [] && Lineage(hash, origin, plan, t) && u.dirs <= Widened(t, plan[i]).dirs
    requires AllRecoverable(origin, plan, earlier, from, |earlier|)
    requires earlier <= trace && trace != [] && trace[|trace| - 1] == u
    requires DirSteps(trace, |earlier|, |trace| - 1, t.files, t.dirs, u.dirs)
    ensures AllRecoverable(origin, plan, trace, from, |trace| - 1)
    ensures Recoverable(origin, plan, u) ==> AllRecoverable(origin, plan, trace, from, |trace|)
  {
    WayRecoverable(hash, origin, plan, t, i, u.dirs, trace, |earlier|, |trace| - 1);
    RecoverableJoin(origin, plan, earlier, trace, from, |trace| - 1);
    RecoverableLast(origin, plan, trace, from, u);
  }

  /** Only the entry whose place is written to sees a file put at its source. */
  lemma OthersPass(hash: Content -> Sha, origin: Tree, plan: seq<Entry>, t: Tree, i: nat, partial: Content, j: nat,
                   restoring: bool)
    requires Lineage(hash, origin, plan, t) && i < |plan| && j < |plan| && j != i
    ensures EntryOk(hash, Overwritten(t, plan[i], partial), plan[j], restoring)
       <==> restoring || !Gone(t.files, plan[j])
  {
    var u := Overwritten(t, plan[i], partial);
    EntryPasses(hash, origin, plan, t, j, restoring);
    EntriesApartIn(plan, i, j);
    TornUnblocked(hash, origin, plan, t, i, partial, j);
    PlacesFree(hash, origin, plan, t, j);
    NothingBlocks(hash, origin, plan, t, j);
    assert Probe(hash, u, plan[j].source, plan[j]) == Probe(hash, t, plan[j].source, plan[j]);
    assert Probe(hash, u, plan[j].destination, plan[j]) == Probe(hash, t, plan[j].destination, plan[j]);
  }

  lemma NotOnTheWay(hash: Content -> Sha, origin: Tree, plan: seq<Entry>, i: nat, j: nat)
    requires Sound(hash, origin, plan) && i < |plan| && j < |plan|
    ensures forall k | 0 < k < |plan[j].source| :: plan[j].source[..k] != plan[i].source
    ensures forall k | 0 < k < |plan[j].destination| :: plan[j].destination[..k] != plan[i].source
  {
    assert Fits(origin, plan[i]) && Fits(origin, plan[j]);
    assert plan[j].destination[..3] == Parent(plan[j].destination);
  }

  lemma PutEntryPasses(hash: Content -> Sha, u: Tree, e: Entry, restoring: bool)
    requires !Blocked(u, e.source) && !Blocked(u, e.destination) && e.source !in u.dirs && e.destination !in u.dirs
    requires e.source in u.files && e.destination !in u.files
    ensures EntryOk(hash, u, e, restoring) <==> Matches(hash, u.files[e.source], e)
  {
  }

  lemma TornUnblocked(hash: Content -> Sha, origin: Tree, plan: seq<Entry>, t: Tree, i: nat, partial: Content, j: nat)
    requires Lineage(hash, origin, plan, t) && i < |plan| && j < |plan|
    ensures var u := Overwritten(t, plan[i], partial); !Blocked(u, plan[j].source) && !Blocked(u, plan[j].destination)
  {
    PlacesFree(hash, origin, plan, t, j);
    NothingBlocks(hash, origin, plan, t, j);
    NotOnTheWay(hash, origin, plan, i, j);
  }

  lemma TornEntryPasses(hash: Content -> Sha, origin: Tree, plan: seq<Entry>, t: Tree, i: nat, partial: Content,
                        restoring: bool)
    requires Lineage(hash, origin, plan, t) && i < |plan| && Gone(t.files, plan[i])
    ensures EntryOk(hash, Overwritten(t, plan[i], partial), plan[i], restoring) <==> Matches(hash, partial, plan[i])
  {
    TornUnblocked(hash, origin, plan, t, i, partial, i);
    PlacesFree(hash, origin, plan, t, i);
    PutEntryPasses(hash, Overwritten(t, plan[i], partial), plan[i], restoring);
  }

  /** After a torn copy a later restore is let through exactly when the torn bytes
      happen to have the size and digest of the original; a later apply, only if
      besides nothing else is lost. */
  lemma TornPassesExactly(hash: Content -> Sha, origin: Tree, plan: seq<Entry>, t: Tree, i: nat, partial: Content,
                          restoring: bool)
    requires Lineage(hash, origin, plan, t) && i < |plan| && Gone(t.files, plan[i])
    ensures PreflightOk(hash, Overwritten(t, plan[i], partial), plan, restoring)
       <==> Matches(hash, partial, plan[i])
            && (restoring || forall j | 0 <= j < |plan| && j != i :: !Gone(t.files, plan[j]))
  {
    TornEntryPasses(hash, origin, plan, t, i, partial, restoring);
    forall j | 0 <= j < |plan| && j != i
      ensures EntryOk(hash, Overwritten(t, plan[i], partial), plan[j], restoring)
           <==> restoring || !Gone(t.files, plan[j])
    {
      OthersPass(hash, origin, plan, t, i, partial, j, restoring);
    }
  }

  /** What a restore that was let through leaves: a recoverable tree unless it tore an
      entry, and then one that a later restore refuses, if the torn bytes differ in
      size or digest. */
  ghost predicate Leaves(hash: Content -> Sha, origin: Tree, plan: seq<Entry>, faults: nat -> RestoreFault,
                         before: Files, u: Tree)
    requires Routed(plan)
  {
    && (Recoverable(origin, plan, u) <==> !exists i: nat :: TornAt(origin, plan, faults, before, i))
    && (forall i: nat | TornAt(origin, plan, faults, before, i) ::
          && plan[i].source in u.files && u.files[plan[i].source] == faults(i).partial
          && (PreflightOk(hash, u, plan, true) <==> Matches(hash, faults(i).partial, plan[i])))
  }

  lemma DoneLeaves(hash: Content -> Sha, origin: Tree, plan: seq<Entry>, faults: nat -> RestoreFault, before: Files,
                   u: Tree)
    requires Routed(plan) && Recoverable(origin, plan, u)
    requires forall j | 0 <= j < |plan| :: !Hits(faults(j), before, plan[j])
    ensures Leaves(hash, origin, plan, faults, before, u)
  {
    forall i: nat ensures !TornAt(origin, plan, faults, before, i) {
      TornHits(origin, plan, faults, before, i);
    }
  }

  lemma TornHits(origin: Tree, plan: seq<Entry>, faults: nat -> RestoreFault, before: Files, i: nat)
    ensures TornAt(origin, plan, faults, before, i) ==> i < |plan| && Hits(faults(i), before, plan[i])
  {
  }

  lemma StoppedLeaves(hash: Content -> Sha, origin: Tree, plan: seq<Entry>, i: nat, faults: nat -> RestoreFault,
                      before: Files, t: Tree, u: Tree, saved: Content)
    requires Lineage(hash, origin, plan, t) && i < |plan| && Returned(plan, i, faults, before, t)
    requires plan[i].source != [] && saved == origin.files[plan[i].source] && plan[i].source !in t.files && TreeOk(u)
    requires BroughtBack(hash, t, u, plan[i], saved, faults(i), false)
    ensures Leaves(hash, origin, plan, faults, before, u)
  {
    OurReturn(hash, origin, plan, i, faults, before, t, u, saved, false);
    forall k: nat ensures TornAt(origin, plan, faults, before, k) ==> k == i {
      TornHits(origin, plan, faults, before, k);
    }
    if TornAt(origin, plan, faults, before, i) {
      WidenedIsRecoverable(hash, origin, plan, t, i);
      TornPassesExactly(hash, origin, plan, Widened(t, plan[i]), i, faults(i).partial, true);
    }
  }

  /** What one entry of a restore comes to over a recoverable tree. */
  lemma OurRestored(hash: Content -> Sha, origin: Tree, plan: seq<Entry>, i: nat, faults: nat -> RestoreFault,
                    before: Files, t: Tree, u: Tree, saved: Content, ok: bool, earlier: seq<Tree>, trace: seq<Tree>,
                    from: nat)
    requires i < |plan| && Routed(plan) && Sound(hash, origin, plan) && TreeOk(u)
    requires OursSoFar(plan, origin, t, earlier, from) && Returned(plan, i, faults, before, t)
    requires plan[i].source != [] && saved == origin.files[plan[i].source]
    requires EntryReturned(hash, t, u, plan[i], saved, faults(i), ok, earlier, trace)
    ensures AllRecoverable(origin, plan, trace, from, |trace| - 1)
    ensures ok ==> OursSoFar(plan, origin, u, trace, from) && Returned(plan, i + 1, faults, before, u)
    ensures !ok ==> Hits(faults(i), before, plan[i]) && Leaves(hash, origin, plan, faults, before, u)
  {
    OurReturn(hash, origin, plan, i, faults, before, t, u, saved, ok);
    OurWay(hash, origin, plan, i, t, u, earlier, trace, from);
    if !ok {
      StoppedLeaves(hash, origin, plan, i, faults, before, t, u, saved);
    }
  }

  /** The run directories that the migration created have nothing left in them. */
  lemma RunDirsEmpty(hash: Content -> Sha, origin: Tree, plan: seq<Entry>, t: Tree)
    requires Lineage(hash, origin, plan, t) && t.files == origin.files
    ensures forall d | d in RunDirs(plan) :: EmptyDir(t.files, t.dirs, d) && d !in origin.dirs
  {
    forall d | d in RunDirs(plan) ensures |d| == 3 && d !in origin.dirs {
      var i :| 0 <= i < |plan| && !plan[i].directoryExisted && d == Parent(plan[i].destination);
      assert Fits(origin, plan[i]);
    }
    forall d, p | d in RunDirs(plan) && (p in t.files || p in t.dirs) ensures !ChildOf(p, d) {
      assert ChildOf(p, d) ==> |p| == 4 && Parent(p) == d;
    }
  }
}
