/** The archive tree, the migration plan, and what a tree must look like for the
    plan to be applied or taken back. A digest is a function of the content. */
module MigrationPlan {
  import opened Common

  type Path = seq<string>
  type Content = string
  type Sha = s: string | |s| == 64 witness seq(64, _ => '0')

  datatype Tree = Tree(files: map<Path, Content>, dirs: set<Path>)

  datatype Entry = Entry(source: Path, destination: Path, backup: Path,
                         directoryExisted: bool, fileExisted: bool, size: nat, sha: string)

  function Parent(p: Path): Path
    requires |p| > 0
  {
    p[..|p| - 1]
  }

  /** Files and directories hang below directories, and no path is both. */
  predicate TreeOk(t: Tree) {
    && (forall p :: p in t.files ==> |p| > 0 && p !in t.dirs && (|p| > 1 ==> Parent(p) in t.dirs))
    && (forall d :: d in t.dirs ==> |d| > 0 && (|d| > 1 ==> Parent(d) in t.dirs))
  }

  // ----- Run identities -----

  function Lower(s: string): (r: string)
    ensures |r| == |s|
    ensures forall i | 0 <= i < |s| :: r[i] == if 'A' <= s[i] <= 'Z' then s[i] - 'A' + 'a' else s[i]
  {
    seq(|s|, i requires 0 <= i < |s| => if 'A' <= s[i] <= 'Z' then s[i] - 'A' + 'a' else s[i])
  }

  function TrimLeft(s: string): string {
    if s != "" && IsSpace(s[0]) then TrimLeft(s[1..]) else s
  }

  function TrimRight(s: string): string {
    if s != "" && IsSpace(s[|s| - 1]) then TrimRight(s[..|s| - 1]) else s
  }

  predicate DashAt(i: int) { i == 8 || i == 13 || i == 18 || i == 23 }

  predicate CanonicalUuid(s: string) {
    |s| == 36 && forall i | 0 <= i < 36 :: if DashAt(i) then s[i] == '-' else '0' <= s[i] <= '9' || 'a' <= s[i] <= 'f'
  }

  function WithoutDashes(s: string): string {
    if s == "" then "" else (if s[0] == '-' then "" else [s[0]]) + WithoutDashes(s[1..])
  }

  const RunPrefix := "legacy-"

  function RunId(stream: string): Option<string> {
    var id := Lower(TrimRight(TrimLeft(stream)));
    if CanonicalUuid(id) then Some(RunPrefix + WithoutDashes(id)) else None
  }

  /** The dashes stand at fixed places, so dropping them loses nothing. */
  lemma RunIdIdentifiesStream(s: string, t: string)
    requires RunId(s).Some? && RunId(s) == RunId(t)
    ensures Lower(TrimRight(TrimLeft(s))) == Lower(TrimRight(TrimLeft(t)))
  {
    var a, b := Lower(TrimRight(TrimLeft(s))), Lower(TrimRight(TrimLeft(t)));
    assert (RunPrefix + WithoutDashes(a))[|RunPrefix|..] == WithoutDashes(a);
    assert (RunPrefix + WithoutDashes(b))[|RunPrefix|..] == WithoutDashes(b);
    assert a[0..] == a && b[0..] == b;
    DashesDetermined(a, b, 0);
  }

  lemma {:induction false} DashesDetermined(a: string, b: string, i: nat)
    requires CanonicalUuid(a) && CanonicalUuid(b) && i <= 36
    requires WithoutDashes(a[i..]) == WithoutDashes(b[i..])
    ensures a[i..] == b[i..]
    decreases 36 - i
  {
    if i < 36 {
      var x, y := a[i..], b[i..];
      assert x[1..] == a[i + 1..] && y[1..] == b[i + 1..] && x[0] == a[i] && y[0] == b[i];
      if DashAt(i) {
        assert a[i] == '-' && b[i] == '-';
        assert WithoutDashes(x) == WithoutDashes(x[1..]) && WithoutDashes(y) == WithoutDashes(y[1..]);
      } else {
        assert a[i] != '-' && b[i] != '-';
        assert WithoutDashes(x) == [x[0]] + WithoutDashes(x[1..]);
        assert WithoutDashes(y) == [y[0]] + WithoutDashes(y[1..]);
        assert WithoutDashes(x)[0] == x[0] && WithoutDashes(x)[1..] == WithoutDashes(x[1..]);
        assert WithoutDashes(y)[0] == y[0] && WithoutDashes(y)[1..] == WithoutDashes(y[1..]);
      }
      DashesDetermined(a, b, i + 1);
      assert x == [x[0]] + x[1..] && y == [y[0]] + y[1..];
    }
  }

  lemma JoinedRest(a: string, b: string)
    requires a != ""
    ensures (a + b)[0] == a[0] && (a + b)[1..] == a[1..] + b
  {
  }

  lemma Rejoined(a: string, b: string, c: string)
    ensures a + (b + c) == a + b + c
  {
  }

  lemma {:induction false} WithoutDashesJoins(a: string, b: string)
    ensures WithoutDashes(a + b) == WithoutDashes(a) + WithoutDashes(b)
  {
    if a == "" {
      assert a + b == b;
    } else {
      JoinedRest(a, b);
      WithoutDashesJoins(a[1..], b);
      Rejoined(if a[0] == '-' then "" else [a[0]], WithoutDashes(a[1..]), WithoutDashes(b));
    }
  }

  lemma {:induction false} DashFreeStays(a: string)
    requires '-' !in a
    ensures WithoutDashes(a) == a
  {
    if a != "" {
      DashFreeStays(a[1..]);
    }
  }

  /** Text, a dash and more text: the dash goes. */
  lemma DashDropped(a: string, b: string)
    requires '-' !in a
    ensures WithoutDashes(a + "-" + b) == a + WithoutDashes(b)
  {
    DashFreeStays(a);
    assert a + "-" + b == a + ("-" + b);
    WithoutDashesJoins(a, "-" + b);
    assert ("-" + b)[0] == '-' && ("-" + b)[1..] == b;
  }

  lemma CanonicalParts(s: string)
    requires CanonicalUuid(s)
    ensures s == s[..8] + "-" + (s[9..13] + "-" + (s[14..18] + "-" + (s[19..23] + "-" + s[24..])))
    ensures '-' !in s[..8] && '-' !in s[9..13] && '-' !in s[14..18] && '-' !in s[19..23] && '-' !in s[24..]
  {
    assert s[8] == s[13] == s[18] == s[23] == '-';
    assert forall i | 0 <= i < 36 && !DashAt(i) :: s[i] != '-';
  }

  /** The run identity of a canonical name, spelled out: the prefix and the five groups
      of digits. */
  lemma RunIdSpelled(s: string)
    requires CanonicalUuid(s)
    ensures RunId(s) == Some("legacy-" + (s[..8] + (s[9..13] + (s[14..18] + (s[19..23] + s[24..])))))
  {
    CanonicalHasRun(s);
    CanonicalParts(s);
    DashDropped(s[..8], s[9..13] + "-" + (s[14..18] + "-" + (s[19..23] + "-" + s[24..])));
    DashDropped(s[9..13], s[14..18] + "-" + (s[19..23] + "-" + s[24..]));
    DashDropped(s[14..18], s[19..23] + "-" + s[24..]);
    DashDropped(s[19..23], s[24..]);
    DashFreeStays(s[24..]);
  }

  /** Thirty-six characters in five groups of lower-case digits. */
  lemma CanonicalExactly(s: string)
    ensures CanonicalUuid(s) <==>
              && |s| == 36 && s[8] == s[13] == s[18] == s[23] == '-'
              && Digits(s[..8]) && Digits(s[9..13]) && Digits(s[14..18]) && Digits(s[19..23]) && Digits(s[24..])
  {
    if |s| == 36 && Digits(s[..8]) && Digits(s[9..13]) && Digits(s[14..18]) && Digits(s[19..23]) && Digits(s[24..]) {
      GroupDigits(s, 0, 8);
      GroupDigits(s, 9, 13);
      GroupDigits(s, 14, 18);
      GroupDigits(s, 19, 23);
      GroupDigits(s, 24, 36);
      assert s[24..36] == s[24..];
    }
  }

  lemma GroupDigits(s: string, from: nat, to: nat)
    requires from <= to <= |s|
    ensures Digits(s[from..to]) <==> forall i | from <= i < to :: '0' <= s[i] <= '9' || 'a' <= s[i] <= 'f'
  {
    if Digits(s[from..to]) {
      forall i | from <= i < to ensures '0' <= s[i] <= '9' || 'a' <= s[i] <= 'f' {
        assert s[from..to][i - from] == s[i];
      }
    }
  }

  predicate Digits(s: string) {
    forall i | 0 <= i < |s| :: '0' <= s[i] <= '9' || 'a' <= s[i] <= 'f'
  }

  /** Trimming drops exactly the white space at the ends. */
  lemma TrimExactly(s: string)
    ensures exists a, b :: Trims(s, a, TrimRight(TrimLeft(s)), b)
  {
    var a := TrimLeftExactly(s);
    var b := TrimRightExactly(TrimLeft(s));
    var left, middle := TrimLeft(s), TrimRight(TrimLeft(s));
    assert s == a + middle + b;
    assert middle != "" ==> middle[0] == left[0];
    assert Trims(s, a, middle, b);
  }

  predicate Spaces(s: string) { forall i | 0 <= i < |s| :: IsSpace(s[i]) }

  predicate Trims(s: string, a: string, middle: string, b: string) {
    && s == a + middle + b && Spaces(a) && Spaces(b)
    && (middle != "" ==> !IsSpace(middle[0]) && !IsSpace(middle[|middle| - 1]))
  }

  lemma {:induction false} TrimLeftExactly(s: string) returns (a: string)
    ensures s == a + TrimLeft(s) && Spaces(a) && (TrimLeft(s) != "" ==> !IsSpace(TrimLeft(s)[0]))
  {
    a := "";
    if s != "" && IsSpace(s[0]) {
      a := TrimLeftExactly(s[1..]);
      a := [s[0]] + a;
      assert s == [s[0]] + s[1..];
    }
  }

  lemma {:induction false} TrimRightExactly(s: string) returns (b: string)
    ensures s == TrimRight(s) + b && Spaces(b)
    ensures TrimRight(s) != "" ==> !IsSpace(TrimRight(s)[|TrimRight(s)| - 1]) && TrimRight(s)[0] == s[0]
  {
    b := "";
    if s != "" && IsSpace(s[|s| - 1]) {
      b := TrimRightExactly(s[..|s| - 1]);
      b := b + [s[|s| - 1]];
      assert s == s[..|s| - 1] + [s[|s| - 1]];
    }
  }

  /** Every name that has a run identity is a canonical one with white space around it
      and upper-case digits, and the identity is that of the canonical one. */
  lemma RunIdExactly(stream: string)
    ensures var id := Lower(TrimRight(TrimLeft(stream)));
            && (RunId(stream).Some? <==> CanonicalUuid(id))
            && (RunId(stream).Some? ==> RunId(stream) == RunId(id))
  {
    var id := Lower(TrimRight(TrimLeft(stream)));
    if CanonicalUuid(id) {
      CanonicalHasRun(id);
    }
  }

  // ----- Checks shared by every operation -----

  predicate Matches(hash: Content -> Sha, c: Content, e: Entry) {
    |c| == e.size && hash(c) == e.sha
  }

  datatype Presence = Absent | Match | Clash

  /** Some proper ancestor of the path is a regular file. */
  predicate Blocked(t: Tree, p: Path) {
    exists k | 0 < k < |p| :: p[..k] in t.files
  }

  function Probe(hash: Content -> Sha, t: Tree, p: Path, e: Entry): Presence {
    if Blocked(t, p) || p in t.dirs then Clash
    else if p !in t.files then Absent
    else if Matches(hash, t.files[p], e) then Match else Clash
  }

  /** One entry passes preflight: pending, applied, or (when restoring) lost. */
  predicate EntryOk(hash: Content -> Sha, t: Tree, e: Entry, restoring: bool) {
    var source, destination := Probe(hash, t, e.source, e), Probe(hash, t, e.destination, e);
    && !source.Clash? && !destination.Clash?
    && !(destination.Match? && (source.Match? || e.fileExisted))
    && (restoring || source.Match? || destination.Match?)
  }

  /** Preflight's conditions on one entry, spelled out. */
  lemma EntryOkExactly(hash: Content -> Sha, t: Tree, e: Entry, restoring: bool)
    ensures EntryOk(hash, t, e, restoring) <==>
              && (forall k | 0 < k < |e.source| :: e.source[..k] !in t.files)
              && (forall k | 0 < k < |e.destination| :: e.destination[..k] !in t.files)
              && e.source !in t.dirs && e.destination !in t.dirs
              && (e.source in t.files ==>
                    |t.files[e.source]| == e.size && hash(t.files[e.source]) == e.sha && e.destination !in t.files)
              && (e.destination in t.files ==>
                    |t.files[e.destination]| == e.size && hash(t.files[e.destination]) == e.sha && !e.fileExisted)
              && (!restoring ==> e.source in t.files || e.destination in t.files)
  {
  }

  predicate PreflightOk(hash: Content -> Sha, t: Tree, plan: seq<Entry>, restoring: bool) {
    forall i | 0 <= i < |plan| :: EntryOk(hash, t, plan[i], restoring)
  }

  predicate ValidPlan(plan: seq<Entry>) {
    && plan != []
    && (forall i | 0 <= i < |plan| ::
          |plan[i].sha| == 64 && plan[i].source != [] && plan[i].destination != [] && plan[i].backup != [])
    && (forall i, j | 0 <= i < j < |plan| :: plan[i].source != plan[j].source)
  }

  /** What is on disk; `sha` is the digest of the manifest file. */
  datatype BackupDir = BackupDir(manifest: Option<seq<Entry>>, objects: map<Path, Content>, sha: Sha)

  /** What a caller holds of a backup: where it is, and what its manifest was. */
  datatype Artifact = Artifact(dir: BackupDir, sha: Sha, records: nat)

  /** The backup carries this very plan and every object still has its digest. */
  predicate ValidBackup(hash: Content -> Sha, b: BackupDir, plan: seq<Entry>) {
    && b.manifest == Some(plan)
    && forall i | 0 <= i < |plan| :: plan[i].backup in b.objects && Matches(hash, b.objects[plan[i].backup], plan[i])
  }

  /** ... and it is the backup that the caller was given. */
  predicate Accepted(hash: Content -> Sha, a: Artifact, plan: seq<Entry>) {
    ValidBackup(hash, a.dir, plan) && a.sha == a.dir.sha && a.records == |plan|
  }

  /** What a caller must hold, spelled out. */
  lemma AcceptedExactly(hash: Content -> Sha, a: Artifact, plan: seq<Entry>)
    ensures ValidPlan(plan) && Accepted(hash, a, plan) <==>
              && plan != [] && a.dir.manifest == Some(plan) && a.sha == a.dir.sha && a.records == |plan|
              && (forall i | 0 <= i < |plan| ::
                    && |plan[i].sha| == 64 && plan[i].source != [] && plan[i].destination != [] && plan[i].backup != []
                    && plan[i].backup in a.dir.objects && |a.dir.objects[plan[i].backup]| == plan[i].size
                    && hash(a.dir.objects[plan[i].backup]) == plan[i].sha)
              && (forall i, j | 0 <= i < j < |plan| :: plan[i].source != plan[j].source)
  {
  }

  // ----- A plan built from a tree -----

  predicate Describes(hash: Content -> Sha, t: Tree, e: Entry) {
    && |e.source| == 3 && e.source[0] == "final" && RunId(e.source[1]).Some?
    && e.destination == ["final", e.source[1], RunId(e.source[1]).value, e.source[2]]
    && e.backup == ["objects", e.source[1], RunId(e.source[1]).value, e.source[2]]
    && e.source in t.files && Matches(hash, t.files[e.source], e)
    && e.directoryExisted == (Parent(e.destination) in t.dirs)
    && e.fileExisted == (e.destination in t.files || e.destination in t.dirs)
    && Parent(e.destination) !in t.files
  }

  predicate Sources(plan: seq<Entry>, p: Path) {
    exists i | 0 <= i < |plan| :: plan[i].source == p
  }

  /** The plan lists every legacy file of the tree exactly once. */
  predicate PlannedFrom(hash: Content -> Sha, t: Tree, plan: seq<Entry>) {
    && TreeOk(t)
    && (forall i | 0 <= i < |plan| :: Describes(hash, t, plan[i]))
    && (forall i, j | 0 <= i < j < |plan| :: plan[i].source != plan[j].source)
    && (forall p | p in t.files && |p| == 3 && p[0] == "final" :: Sources(plan, p))
  }

  /** No file was in the way when the plan was made. */
  predicate Unobstructed(plan: seq<Entry>) {
    forall i | 0 <= i < |plan| :: !plan[i].fileExisted
  }

  predicate Touched(plan: seq<Entry>, p: Path) {
    exists i | 0 <= i < |plan| :: p == plan[i].source || p == plan[i].destination
  }

  /** Sources and destinations are all different paths. */
  predicate Separate(plan: seq<Entry>) {
    && (forall i, j | 0 <= i < j < |plan| ::
          plan[i].source != plan[j].source && plan[i].destination != plan[j].destination)
    && (forall i, j | 0 <= i < |plan| && 0 <= j < |plan| :: plan[i].source != plan[j].destination)
  }

  function RunDirs(plan: seq<Entry>): set<Path>
    requires forall i | 0 <= i < |plan| :: plan[i].destination != []
  {
    set i | 0 <= i < |plan| && !plan[i].directoryExisted :: Parent(plan[i].destination)
  }

  /** Two described entries that meet anywhere are about the same file. */
  lemma EntriesApart(hash: Content -> Sha, t: Tree, e: Entry, f: Entry)
    requires Describes(hash, t, e) && Describes(hash, t, f)
    ensures e.destination == f.destination || e.backup == f.backup ==> e.source == f.source
    ensures e.source != f.destination
  {
    assert |e.source| == 3 && |f.destination| == 4;
    assert e.source == ["final", e.destination[1], e.destination[3]] == ["final", e.backup[1], e.backup[3]];
    assert f.source == ["final", f.destination[1], f.destination[3]] == ["final", f.backup[1], f.backup[3]];
  }

  lemma PlannedIsSeparate(hash: Content -> Sha, t: Tree, plan: seq<Entry>)
    requires PlannedFrom(hash, t, plan)
    ensures Separate(plan)
    ensures plan != [] ==> ValidPlan(plan)
    ensures forall i, j | 0 <= i < j < |plan| :: plan[i].backup != plan[j].backup
  {
    forall i, j | 0 <= i < |plan| && 0 <= j < |plan|
      ensures plan[i].destination == plan[j].destination || plan[i].backup == plan[j].backup ==>
                plan[i].source == plan[j].source
      ensures plan[i].source != plan[j].destination
    {
      EntriesApart(hash, t, plan[i], plan[j]);
    }
    assert forall i | 0 <= i < |plan| :: Describes(hash, t, plan[i]);
  }

  /** The tree the plan was made from passes preflight exactly when no file was
      in the way; otherwise both applying and restoring refuse it. */
  lemma OriginPassesExactly(hash: Content -> Sha, t: Tree, plan: seq<Entry>, restoring: bool)
    requires PlannedFrom(hash, t, plan)
    ensures PreflightOk(hash, t, plan, restoring) <==> Unobstructed(plan)
  {
    forall i | 0 <= i < |plan| ensures EntryOk(hash, t, plan[i], restoring) <==> !plan[i].fileExisted {
      EntryPassesExactly(hash, t, plan[i], restoring);
    }
  }

  lemma EntryPassesExactly(hash: Content -> Sha, t: Tree, e: Entry, restoring: bool)
    requires TreeOk(t) && Describes(hash, t, e)
    ensures EntryOk(hash, t, e, restoring) <==> !e.fileExisted
  {
    PlannedUnblocked(hash, t, e);
    assert Probe(hash, t, e.source, e).Match?;
  }

  lemma PlannedUnblocked(hash: Content -> Sha, t: Tree, e: Entry)
    requires TreeOk(t) && Describes(hash, t, e)
    ensures !Blocked(t, e.source) && !Blocked(t, e.destination)
  {
    assert Parent(e.source) == e.source[..2] && Parent(e.source[..2]) == e.source[..1];
    assert e.source[..2] in t.dirs && e.source[..1] in t.dirs;
    assert e.destination[..2] == e.source[..2] && e.destination[..1] == e.source[..1];
    assert e.destination[..3] == Parent(e.destination);
  }

  /** A stream whose run directory already holds a file of the same name. */
  function ObstructedTree(e: Entry, c: Content, d: Content): Tree
    requires |e.source| == 3 && |e.destination| == 4
  {
    Tree(map[e.source := c, e.destination := d],
         {Parent(Parent(e.source)), Parent(e.source), Parent(e.destination)})
  }

  function ObstructedEntry(stream: string, run: string, name: string, size: nat, sha: string): Entry {
    Entry(["final", stream, name], ["final", stream, run, name], ["objects", stream, run, name], true, true, size, sha)
  }

  lemma ObstructedParents(stream: string, run: string, name: string, size: nat, sha: string)
    ensures var e := ObstructedEntry(stream, run, name, size, sha);
            && Parent(e.source) == ["final", stream] && Parent(Parent(e.source)) == ["final"]
            && Parent(e.destination) == ["final", stream, run] && Parent(Parent(e.destination)) == Parent(e.source)
            && (run != name ==> Parent(e.destination) != e.source)
  {
    var e := ObstructedEntry(stream, run, name, size, sha);
    assert Parent(e.destination)[2] == run && e.source[2] == name;
  }

  /** Such a tree has a plan, and neither an apply nor a restore lets the tree it was
      made from through. */
  lemma ObstructedIsRefused(hash: Content -> Sha, stream: string, name: string, c: Content, d: Content, restoring: bool)
    requires RunId(stream).Some? && RunId(stream).value != name
    ensures var e := ObstructedEntry(stream, RunId(stream).value, name, |c|, hash(c));
            var t := ObstructedTree(e, c, d);
            PlannedFrom(hash, t, [e]) && !Unobstructed([e]) && !PreflightOk(hash, t, [e], restoring)
  {
    var run := RunId(stream).value;
    ObstructedParents(stream, run, name, |c|, hash(c));
    var e := ObstructedEntry(stream, run, name, |c|, hash(c));
    var t := ObstructedTree(e, c, d);
    assert TreeOk(t);
    assert Describes(hash, t, e);
    assert [e][0] == e && Sources([e], e.source);
    OriginPassesExactly(hash, t, [e], restoring);
  }

  /** Every canonical name has a run identity, and there are such names. */
  lemma CanonicalHasRun(s: string)
    requires CanonicalUuid(s)
    ensures RunId(s) == Some(RunPrefix + WithoutDashes(s))
  {
    assert s[0] != ' ' && !IsSpace(s[0]) && !IsSpace(s[35]);
    assert TrimRight(TrimLeft(s)) == s;
    assert forall i | 0 <= i < 36 :: !('A' <= s[i] <= 'Z');
    assert Lower(s) == s;
  }

  const NilUuid := seq(36, i => if DashAt(i) then '-' else '0')

  /** There is a tree that has a plan which neither an apply nor a restore accepts. */
  lemma ObstructedTreeExists(hash: Content -> Sha, c: Content, d: Content)
    ensures exists t: Tree, plan: seq<Entry> ::
              && PlannedFrom(hash, t, plan) && plan != []
              && !PreflightOk(hash, t, plan, false) && !PreflightOk(hash, t, plan, true)
  {
    assert CanonicalUuid(NilUuid);
    CanonicalHasRun(NilUuid);
    var run, name := RunId(NilUuid).value, "video.ts";
    assert run[0] == 'l' && name[0] == 'v';
    ObstructedIsRefused(hash, NilUuid, name, c, d, false);
    ObstructedIsRefused(hash, NilUuid, name, c, d, true);
    var e := ObstructedEntry(NilUuid, run, name, |c|, hash(c));
    assert PlannedFrom(hash, ObstructedTree(e, c, d), [e]) && [e] != [];
  }
}
