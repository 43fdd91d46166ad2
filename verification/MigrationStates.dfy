/** The trees a migration passes through, and how they relate to the tree the
    plan was made from. */
module MigrationStates {
  import opened Common
  import opened MigrationPlan

  type Files = map<Path, Content>

  // ----- Moves and their inverse -----

  function Move(f: Files, e: Entry): Files
    requires e.source in f
  {
    (f - {e.source})[e.destination := f[e.source]]
  }

  /** Each move starts from a present source and an absent destination. */
  predicate MovesOk(f: Files, moved: seq<Entry>)
    decreases |moved|, 0
  {
    moved == [] ||
    (var n := |moved| - 1;
     && MovesOk(f, moved[..n]) && moved[n].source in MoveAll(f, moved[..n])
     && moved[n].destination !in MoveAll(f, moved[..n]))
  }

  function MoveAll(f: Files, moved: seq<Entry>): Files
    requires MovesOk(f, moved)
    decreases |moved|, 1
  {
    if moved == [] then f else Move(MoveAll(f, moved[..|moved| - 1]), moved[|moved| - 1])
  }

  lemma MoveOneMore(f: Files, moved: seq<Entry>, e: Entry)
    requires MovesOk(f, moved) && e.source in MoveAll(f, moved) && e.destination !in MoveAll(f, moved)
    ensures MovesOk(f, moved + [e]) && MoveAll(f, moved + [e]) == Move(MoveAll(f, moved), e)
  {
    assert (moved + [e])[..|moved|] == moved;
  }

  /** Renaming back undoes a move exactly. */
  lemma MoveUndone(f: Files, e: Entry)
    requires e.source in f && e.destination !in f
    ensures e.destination in Move(f, e) && e.source !in Move(f, e)
    ensures PutBack(Move(f, e), e, Move(f, e)[e.destination]) == f
  {
  }

  // ----- Trees on the way -----

  /** The entry's bytes are at the source, at the destination, or lost. */
  predicate EntryAt(origin: Tree, f: Files, e: Entry) {
    && e.source in origin.files
    && (e.source in f ==> f[e.source] == origin.files[e.source] && e.destination !in f)
    && (e.destination in f ==> f[e.destination] == origin.files[e.source])
  }

  predicate SameElsewhere(f: Files, g: Files, plan: seq<Entry>) {
    && (forall p :: p in f && !Touched(plan, p) ==> p in g && g[p] == f[p])
    && (forall p :: p in g && !Touched(plan, p) ==> p in f)
  }

  predicate Routed(plan: seq<Entry>) {
    forall i | 0 <= i < |plan| :: plan[i].destination != []
  }

  /** The directories above the legacy files. */
  function SourceDirs(plan: seq<Entry>): set<Path> {
    set i, k | 0 <= i < |plan| && 0 < k < |plan[i].source| :: plan[i].source[..k]
  }

  /** A tree that an interrupted apply or restore may leave. Files of the plan may be
      lost, and directories above them too. */
  predicate Recoverable(origin: Tree, plan: seq<Entry>, t: Tree)
    requires Routed(plan)
  {
    && TreeOk(t)
    && (forall i | 0 <= i < |plan| :: EntryAt(origin, t.files, plan[i]))
    && SameElsewhere(origin.files, t.files, plan)
    && origin.dirs - SourceDirs(plan) <= t.dirs && t.dirs <= origin.dirs + RunDirs(plan)
  }

  /** What the original tree guarantees about one entry of an unobstructed plan. */
  predicate Fits(origin: Tree, e: Entry) {
    && |e.source| == 3 && |e.destination| == 4
    && Parent(Parent(e.destination)) == Parent(e.source)
    && e.source in origin.files
    && e.destination !in origin.files && e.destination !in origin.dirs
    && Parent(e.destination) !in origin.files
    && e.directoryExisted == (Parent(e.destination) in origin.dirs)
    && !e.fileExisted
  }

  /** An unobstructed plan of this very tree. */
  predicate Sound(hash: Content -> Sha, origin: Tree, plan: seq<Entry>) {
    && TreeOk(origin) && Separate(plan)
    && (forall i | 0 <= i < |plan| :: Fits(origin, plan[i]))
    && (forall i | 0 <= i < |plan| :: Matches(hash, origin.files[plan[i].source], plan[i]))
  }

  predicate Lineage(hash: Content -> Sha, origin: Tree, plan: seq<Entry>, t: Tree) {
    Sound(hash, origin, plan) && Recoverable(origin, plan, t)
  }

  lemma PlannedIsSound(hash: Content -> Sha, t: Tree, plan: seq<Entry>)
    requires PlannedFrom(hash, t, plan) && Unobstructed(plan)
    ensures Sound(hash, t, plan)
  {
    PlannedIsSeparate(hash, t, plan);
    forall i | 0 <= i < |plan| ensures Fits(t, plan[i]) && Matches(hash, t.files[plan[i].source], plan[i]) {
      DescribedFits(hash, t, plan[i]);
    }
  }

  lemma DescribedFits(hash: Content -> Sha, t: Tree, e: Entry)
    requires Describes(hash, t, e) && !e.fileExisted
    ensures Fits(t, e) && Matches(hash, t.files[e.source], e)
  {
    assert Parent(Parent(e.destination)) == Parent(e.source);
  }

  predicate Placed(f: Files, e: Entry) { e.source !in f && e.destination in f }

  predicate Pending(f: Files, e: Entry) { e.source in f }

  predicate Gone(f: Files, e: Entry) { e.source !in f && e.destination !in f }

  predicate AllPlaced(f: Files, plan: seq<Entry>) {
    forall i | 0 <= i < |plan| :: Placed(f, plan[i])
  }

  predicate AllPending(f: Files, plan: seq<Entry>) {
    forall i | 0 <= i < |plan| :: Pending(f, plan[i])
  }

  predicate NothingLost(f: Files, plan: seq<Entry>) {
    forall i | 0 <= i < |plan| :: !Gone(f, plan[i])
  }

  lemma OriginIsRecoverable(hash: Content -> Sha, origin: Tree, plan: seq<Entry>)
    requires Sound(hash, origin, plan)
    ensures Lineage(hash, origin, plan, origin) && AllPending(origin.files, plan)
  {
    forall i | 0 <= i < |plan| ensures EntryAt(origin, origin.files, plan[i]) && Pending(origin.files, plan[i]) {
      assert Fits(origin, plan[i]);
    }
  }

  /** The tree that has one legacy file, and the same tree after its move. */
  function OneFile(e: Entry, c: Content): Tree
    requires |e.source| == 3
  {
    Tree(map[e.source := c], {Parent(e.source), Parent(Parent(e.source))})
  }

  function OneFileMoved(e: Entry, c: Content): Tree
    requires |e.source| == 3 && |e.destination| == 4
  {
    Tree(map[e.destination := c], {Parent(e.source), Parent(Parent(e.source)), Parent(e.destination)})
  }

  /** Both are recoverable, so the lemmas below are about something. */
  lemma OneFileLineage(hash: Content -> Sha, e: Entry, c: Content)
    requires |e.source| == 3 && |e.destination| == 4 && Parent(Parent(e.destination)) == Parent(e.source)
    requires Parent(e.destination) != e.source && !e.directoryExisted && !e.fileExisted && Matches(hash, c, e)
    ensures Lineage(hash, OneFile(e, c), [e], OneFile(e, c)) && Lineage(hash, OneFile(e, c), [e], OneFileMoved(e, c))
  {
    var origin := OneFile(e, c);
    assert Fits(origin, e);
    assert Sound(hash, origin, [e]);
    OriginIsRecoverable(hash, origin, [e]);
    assert Touched([e], [e][0].source) && Touched([e], [e][0].destination);
    assert [e][0] == e && RunDirs([e]) == {Parent(e.destination)};
    assert Recoverable(origin, [e], OneFileMoved(e, c));
  }

  /** The file may also be lost from both places, alone or with its directories. */
  lemma OneFileLost(hash: Content -> Sha, e: Entry, c: Content)
    requires |e.source| == 3 && |e.destination| == 4 && Parent(Parent(e.destination)) == Parent(e.source)
    requires Parent(e.destination) != e.source && !e.directoryExisted && !e.fileExisted && Matches(hash, c, e)
    ensures Lineage(hash, OneFile(e, c), [e], Tree(map[], OneFile(e, c).dirs))
    ensures Lineage(hash, OneFile(e, c), [e], Tree(map[], {}))
  {
    OneFileLineage(hash, e, c);
    assert Touched([e], [e][0].source);
    assert [e][0].source[..2] == Parent(e.source) && [e][0].source[..1] == Parent(Parent(e.source));
  }

  /** Where no entry is lost, the paths of one entry decide all its bytes, so the
      fully placed tree is the same whatever tree it was reached from. */
  lemma PlacedTreeIsUnique(hash: Content -> Sha, origin: Tree, plan: seq<Entry>, t: Tree, u: Tree)
    requires Lineage(hash, origin, plan, t) && Lineage(hash, origin, plan, u)
    requires AllPlaced(t.files, plan) && AllPlaced(u.files, plan)
    ensures t == u
  {
    forall p | p in t.files ensures p in u.files && u.files[p] == t.files[p] {
      PlacedPathAgrees(origin, plan, t, u, p);
    }
    forall p | p in u.files ensures p in t.files {
      PlacedPathAgrees(origin, plan, u, t, p);
    }
    PlacedDirs(hash, origin, plan, t);
    PlacedDirs(hash, origin, plan, u);
    assert t.files == u.files;
  }

  lemma PlacedPathAgrees(origin: Tree, plan: seq<Entry>, t: Tree, u: Tree, p: Path)
    requires Routed(plan)
    requires Recoverable(origin, plan, t) && Recoverable(origin, plan, u)
    requires AllPlaced(t.files, plan) && AllPlaced(u.files, plan) && p in t.files
    ensures p in u.files && u.files[p] == t.files[p]
  {
    if Touched(plan, p) {
      var i :| 0 <= i < |plan| && (p == plan[i].source || p == plan[i].destination);
      assert Placed(t.files, plan[i]) && Placed(u.files, plan[i]);
      assert EntryAt(origin, t.files, plan[i]) && EntryAt(origin, u.files, plan[i]);
    }
  }

  lemma PlacedDirs(hash: Content -> Sha, origin: Tree, plan: seq<Entry>, t: Tree)
    requires Lineage(hash, origin, plan, t) && AllPlaced(t.files, plan)
    ensures t.dirs == origin.dirs + RunDirs(plan)
  {
    forall d | d in RunDirs(plan) ensures d in t.dirs {
      var i :| 0 <= i < |plan| && !plan[i].directoryExisted && d == Parent(plan[i].destination);
      assert Placed(t.files, plan[i]) && Fits(origin, plan[i]);
    }
    assert forall i | 0 <= i < |plan| :: Placed(t.files, plan[i]) ==> !Gone(t.files, plan[i]);
    NothingLostDirs(hash, origin, plan, t);
  }

  /** A file at either place of an entry keeps the way to its source. */
  lemma WayThere(t: Tree, e: Entry)
    requires TreeOk(t) && |e.source| == 3 && |e.destination| == 4 && Parent(Parent(e.destination)) == Parent(e.source)
    requires !Gone(t.files, e)
    ensures e.source[..2] == Parent(e.source) && e.source[..2] in t.dirs && e.source[..1] in t.dirs
  {
    assert Parent(e.source[..2]) == e.source[..1];
  }

  lemma SourceDirThere(t: Tree, plan: seq<Entry>, d: Path)
    requires TreeOk(t) && d in SourceDirs(plan) && NothingLost(t.files, plan)
    requires forall e | e in plan ::
               |e.source| == 3 && |e.destination| == 4 && Parent(Parent(e.destination)) == Parent(e.source)
    ensures d in t.dirs
  {
    var i, k :| 0 <= i < |plan| && 0 < k < |plan[i].source| && d == plan[i].source[..k];
    var e := plan[i];
    assert e in plan;
    WayThere(t, e);
    assert d == if k == 1 then e.source[..1] else e.source[..2];
  }

  /** Where no entry is lost, no directory is. */
  lemma NothingLostDirs(hash: Content -> Sha, origin: Tree, plan: seq<Entry>, t: Tree)
    requires Lineage(hash, origin, plan, t) && NothingLost(t.files, plan)
    ensures origin.dirs <= t.dirs
  {
    assert forall i | 0 <= i < |plan| :: Fits(origin, plan[i]);
    forall d | d in SourceDirs(plan) ensures d in t.dirs {
      SourceDirThere(t, plan, d);
    }
  }

  /** With every source back, the files are the original ones. */
  lemma AllPendingIsOrigin(hash: Content -> Sha, origin: Tree, plan: seq<Entry>, t: Tree)
    requires Lineage(hash, origin, plan, t) && AllPending(t.files, plan)
    ensures t.files == origin.files && origin.dirs <= t.dirs
  {
    OriginIsRecoverable(hash, origin, plan);
    assert forall i | 0 <= i < |plan| :: Pending(t.files, plan[i]) ==> !Gone(t.files, plan[i]);
    NothingLostDirs(hash, origin, plan, t);
    forall p | p in t.files ensures p in origin.files && origin.files[p] == t.files[p] {
      PendingPathAgrees(origin, plan, t, origin, p);
    }
    forall p | p in origin.files ensures p in t.files {
      PendingPathAgrees(origin, plan, origin, t, p);
    }
  }

  lemma PendingPathAgrees(origin: Tree, plan: seq<Entry>, t: Tree, u: Tree, p: Path)
    requires Routed(plan)
    requires Recoverable(origin, plan, t) && Recoverable(origin, plan, u)
    requires AllPending(t.files, plan) && AllPending(u.files, plan) && p in t.files
    ensures p in u.files && u.files[p] == t.files[p]
  {
    if Touched(plan, p) {
      var i :| 0 <= i < |plan| && (p == plan[i].source || p == plan[i].destination);
      assert Pending(t.files, plan[i]) && Pending(u.files, plan[i]);
      assert EntryAt(origin, t.files, plan[i]) && EntryAt(origin, u.files, plan[i]);
    }
  }

  // ----- Steps between recoverable trees -----

  lemma RunDirIsNoFile(hash: Content -> Sha, origin: Tree, plan: seq<Entry>, t: Tree, j: nat)
    requires Lineage(hash, origin, plan, t) && j < |plan|
    ensures |Parent(plan[j].destination)| == 3 && Parent(plan[j].destination) !in t.files
  {
    var d := Parent(plan[j].destination);
    assert Fits(origin, plan[j]);
    forall i | 0 <= i < |plan| ensures d != plan[i].source && d != plan[i].destination {
      assert Fits(origin, plan[i]);
    }
  }

  /** The places of an entry are free in a recoverable tree, or hold its bytes. */
  lemma PlacesFree(hash: Content -> Sha, origin: Tree, plan: seq<Entry>, t: Tree, i: nat)
    requires Lineage(hash, origin, plan, t) && i < |plan|
    ensures Fits(origin, plan[i]) && EntryAt(origin, t.files, plan[i])
    ensures plan[i].source !in t.dirs && plan[i].destination !in t.dirs
    ensures !Gone(t.files, plan[i]) ==> Parent(plan[i].source) in t.dirs
    ensures Parent(plan[i].destination) !in t.files
  {
    var e := plan[i];
    assert Fits(origin, e) && EntryAt(origin, t.files, e);
    RunDirIsNoFile(hash, origin, plan, t, i);
    forall d | d in RunDirs(plan) ensures |d| == 3 && d !in origin.files {
      var j :| 0 <= j < |plan| && !plan[j].directoryExisted && d == Parent(plan[j].destination);
      assert Fits(origin, plan[j]);
    }
    if !Gone(t.files, e) {
      WayThere(t, e);
    }
  }

  /** The directories above a source were there from the beginning. */
  lemma OriginWay(origin: Tree, e: Entry)
    requires TreeOk(origin) && Fits(origin, e)
    ensures Parent(e.source) == e.source[..2] && e.source[..2] in origin.dirs && e.source[..1] in origin.dirs
    ensures Parent(e.destination) == e.destination[..3]
    ensures e.destination[..2] == e.source[..2] && e.destination[..1] == e.source[..1]
  {
    assert Parent(e.source[..2]) == e.source[..1];
    assert e.destination[..2] == Parent(Parent(e.destination));
    assert e.destination[..1] == e.destination[..2][..1] && e.source[..1] == e.source[..2][..1];
  }

  /** A directory above the sources never becomes a file. */
  lemma DirIsNoFile(hash: Content -> Sha, origin: Tree, plan: seq<Entry>, t: Tree, d: Path)
    requires Lineage(hash, origin, plan, t) && d in origin.dirs && |d| < 3
    ensures d !in t.files
  {
    forall i | 0 <= i < |plan| ensures d != plan[i].source && d != plan[i].destination {
      assert Fits(origin, plan[i]);
    }
  }

  lemma Unblocked(t: Tree, source: Path, destination: Path)
    requires |source| == 3 && |destination| == 4
    requires destination[..2] == source[..2] && destination[..1] == source[..1]
    requires source[..1] !in t.files && source[..2] !in t.files && destination[..3] !in t.files
    ensures !Blocked(t, source) && !Blocked(t, destination)
  {
  }

  /** Nothing stands in the way of an entry in a recoverable tree. */
  lemma NothingBlocks(hash: Content -> Sha, origin: Tree, plan: seq<Entry>, t: Tree, i: nat)
    requires Lineage(hash, origin, plan, t) && i < |plan|
    ensures !Blocked(t, plan[i].source) && !Blocked(t, plan[i].destination)
  {
    var e := plan[i];
    assert Fits(origin, e);
    OriginWay(origin, e);
    DirIsNoFile(hash, origin, plan, t, e.source[..2]);
    DirIsNoFile(hash, origin, plan, t, e.source[..1]);
    RunDirIsNoFile(hash, origin, plan, t, i);
    Unblocked(t, e.source, e.destination);
  }

  lemma EntryPasses(hash: Content -> Sha, origin: Tree, plan: seq<Entry>, t: Tree, i: nat, restoring: bool)
    requires Lineage(hash, origin, plan, t) && i < |plan|
    ensures EntryOk(hash, t, plan[i], restoring) <==> restoring || !Gone(t.files, plan[i])
  {
    PlacesFree(hash, origin, plan, t, i);
    NothingBlocks(hash, origin, plan, t, i);
  }

  /** Preflight accepts a recoverable tree, up to the entries that are lost. */
  lemma RecoverablePasses(hash: Content -> Sha, origin: Tree, plan: seq<Entry>, t: Tree, restoring: bool)
    requires Lineage(hash, origin, plan, t)
    ensures PreflightOk(hash, t, plan, restoring) <==> restoring || NothingLost(t.files, plan)
  {
    forall i | 0 <= i < |plan| ensures EntryOk(hash, t, plan[i], restoring) <==> restoring || !Gone(t.files, plan[i]) {
      EntryPasses(hash, origin, plan, t, i, restoring);
    }
  }

  ghost predicate OnlyEntryMoved(f: Files, g: Files, e: Entry) {
    forall p :: p != e.source && p != e.destination ==> (p in f <==> p in g) && (p in f ==> g[p] == f[p])
  }

  lemma EntriesApartIn(plan: seq<Entry>, i: nat, j: nat)
    requires Separate(plan) && i < |plan| && j < |plan| && i != j
    ensures plan[i].source != plan[j].source && plan[i].destination != plan[j].destination
    ensures plan[i].source != plan[j].destination && plan[i].destination != plan[j].source
  {
  }

  /** Changing the places of one entry, to a valid state of that entry. */
  lemma EntryStaysRecoverable(hash: Content -> Sha, origin: Tree, plan: seq<Entry>, t: Tree, i: nat, g: Files)
    requires Lineage(hash, origin, plan, t) && i < |plan|
    requires OnlyEntryMoved(t.files, g, plan[i]) && EntryAt(origin, g, plan[i]) && TreeOk(Tree(g, t.dirs))
    ensures Recoverable(origin, plan, Tree(g, t.dirs))
  {
    forall j | 0 <= j < |plan| ensures EntryAt(origin, g, plan[j]) {
      assert EntryAt(origin, t.files, plan[j]);
      if j != i {
        EntriesApartIn(plan, i, j);
      }
    }
    assert Touched(plan, plan[i].source) && Touched(plan, plan[i].destination);
    assert SameElsewhere(origin.files, g, plan) by {
      assert SameElsewhere(origin.files, t.files, plan);
    }
  }

  /** Renaming an entry either way leads to a recoverable tree. */
  lemma MoveStaysRecoverable(hash: Content -> Sha, origin: Tree, plan: seq<Entry>, t: Tree, i: nat)
    requires Lineage(hash, origin, plan, t) && i < |plan|
    requires plan[i].source in t.files && Parent(plan[i].destination) in t.dirs
    ensures Recoverable(origin, plan, Tree(Move(t.files, plan[i]), t.dirs))
  {
    PlacesFree(hash, origin, plan, t, i);
    EntryStaysRecoverable(hash, origin, plan, t, i, Move(t.files, plan[i]));
  }

  function PutBack(f: Files, e: Entry, c: Content): Files {
    (f - {e.destination})[e.source := c]
  }

  lemma PutBackFits(origin: Tree, t: Tree, e: Entry, c: Content)
    requires TreeOk(t) && |e.source| > 1 && e.source !in t.dirs && Parent(e.source) in t.dirs
    requires e.source != e.destination && e.source in origin.files && c == origin.files[e.source]
    ensures var g := PutBack(t.files, e, c);
            OnlyEntryMoved(t.files, g, e) && EntryAt(origin, g, e) && TreeOk(Tree(g, t.dirs))
  {
  }

  lemma ReturnStaysRecoverable(hash: Content -> Sha, origin: Tree, plan: seq<Entry>, t: Tree, i: nat, c: Content)
    requires Lineage(hash, origin, plan, t) && i < |plan| && Parent(plan[i].source) in t.dirs
    requires plan[i].source in origin.files && c == origin.files[plan[i].source]
    ensures Recoverable(origin, plan, Tree(PutBack(t.files, plan[i], c), t.dirs))
  {
    PlacesFree(hash, origin, plan, t, i);
    PutBackFits(origin, t, plan[i], c);
    EntryStaysRecoverable(hash, origin, plan, t, i, PutBack(t.files, plan[i], c));
  }

  /** Adding or dropping directories that the tree does not need is harmless. */
  lemma DirsStayRecoverable(origin: Tree, plan: seq<Entry>, t: Tree, dirs: set<Path>)
    requires Routed(plan)
    requires Recoverable(origin, plan, t) && TreeOk(Tree(t.files, dirs))
    requires origin.dirs - SourceDirs(plan) <= dirs && dirs <= origin.dirs + RunDirs(plan)
    ensures Recoverable(origin, plan, Tree(t.files, dirs))
  {
  }
}
