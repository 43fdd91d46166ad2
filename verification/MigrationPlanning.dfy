/** Building the plan from the archive tree, and the backup it is checked against. */
module MigrationPlanning {
  import opened Common
  import opened MigrationPlan
  import opened MigrationStates
  import opened MigrationSteps

  const Final: Path := ["final"]

  // ----- The plan -----

  /** These paths, each listed once. */
  ghost predicate PlansOf(hash: Content -> Sha, t: Tree, paths: set<Path>, plan: seq<Entry>) {
    && (forall i | 0 <= i < |plan| :: Describes(hash, t, plan[i]) && plan[i].source in paths)
    && (forall i, j | 0 <= i < j < |plan| :: plan[i].source != plan[j].source)
    && (forall p | p in paths :: Sources(plan, p))
  }

  function Streams(t: Tree): set<Path> {
    (set p | p in t.files.Keys && |p| == 2 && Parent(p) == Final)
    + (set d | d in t.dirs && |d| == 2 && Parent(d) == Final)
  }

  function Legacy(t: Tree, stream: Path): set<Path> {
    set p | p in t.files.Keys && |p| == 3 && Parent(p) == stream
  }

  function LegacyOf(t: Tree, streams: set<Path>): set<Path> {
    set p | p in t.files.Keys && |p| == 3 && Parent(p) in streams
  }

  /** A stream that BuildPlan refuses. */
  predicate Unplannable(t: Tree, stream: Path)
    requires |stream| == 2
  {
    || stream in t.files
    || (Legacy(t, stream) != {} && (RunId(stream[1]).None? || stream + [RunId(stream[1]).value] in t.files))
  }

  /** A stream is refused when it is a file, or when one of its legacy files has no run
      directory to go to: no canonical name, or a file in its place. */
  lemma UnplannableExactly(t: Tree, stream: Path)
    requires |stream| == 2
    ensures Unplannable(t, stream) <==>
              || stream in t.files
              || exists p | p in t.files ::
                   && |p| == 3 && p[..2] == stream
                   && var id := Lower(TrimRight(TrimLeft(p[1])));
                   && (CanonicalUuid(id) ==>
                         var run := "legacy-" + (id[..8] + (id[9..13] + (id[14..18] + (id[19..23] + id[24..]))));
                         stream + [run] in t.files)
  {
    RunIdExactly(stream[1]);
    var id := Lower(TrimRight(TrimLeft(stream[1])));
    if CanonicalUuid(id) {
      RunIdSpelled(id);
    }
    forall p | p in t.files && |p| == 3 && p[..2] == stream ensures p in Legacy(t, stream) && p[1] == stream[1] {
    }
  }

  lemma PlansJoin(hash: Content -> Sha, t: Tree, a: set<Path>, p: seq<Entry>, b: set<Path>, q: seq<Entry>)
    requires PlansOf(hash, t, a, p) && PlansOf(hash, t, b, q) && a !! b
    ensures PlansOf(hash, t, a + b, p + q)
  {
    forall x | x in a + b ensures Sources(p + q, x) {
      if x in a {
        var i :| 0 <= i < |p| && p[i].source == x;
        assert (p + q)[i].source == x;
      } else {
        var i :| 0 <= i < |q| && q[i].source == x;
        assert (p + q)[|p| + i].source == x;
      }
    }
  }

  /** A legacy file goes below its stream's run directory, whose name is spelled from the
      stream's, and is described as it is. */
  predicate GoesToRunDir(hash: Content -> Sha, t: Tree, e: Entry) {
    && |e.source| == 3 && e.source[0] == "final" && e.source in t.files
    && var stream, name, id := e.source[1], e.source[2], Lower(TrimRight(TrimLeft(e.source[1])));
    && |id| == 36
    && var run := "legacy-" + (id[..8] + (id[9..13] + (id[14..18] + (id[19..23] + id[24..]))));
    && e.destination == ["final", stream, run, name] && e.backup == ["objects", stream, run, name]
    && e.size == |t.files[e.source]| && e.sha == hash(t.files[e.source])
    && e.directoryExisted == (["final", stream, run] in t.dirs)
    && e.fileExisted == (e.destination in t.files || e.destination in t.dirs)
  }

  lemma DescribedGoesToRunDir(hash: Content -> Sha, t: Tree, e: Entry)
    requires Describes(hash, t, e)
    ensures GoesToRunDir(hash, t, e)
  {
    var id := Lower(TrimRight(TrimLeft(e.source[1])));
    RunIdExactly(e.source[1]);
    RunIdSpelled(id);
    assert Parent(e.destination) == ["final", e.source[1], RunId(e.source[1]).value];
  }

  function PlanEntry(hash: Content -> Sha, t: Tree, p: Path, id: string): (e: Entry)
    requires p in t.files && |p| == 3
    ensures Parent(p) == ["final", p[1]] && RunId(p[1]) == Some(id) && Parent(p) + [id] !in t.files ==>
              Describes(hash, t, e)
  {
    assert Parent(p) == ["final", p[1]] ==> p[0] == Parent(p)[0] == "final";
    var directory := ["final", p[1], id];
    var destination := directory + [p[2]];
    assert Parent(destination) == directory && ["final", p[1]] + [id] == directory;
    Entry(p, destination, ["objects", p[1], id, p[2]], directory in t.dirs,
          destination in t.files || destination in t.dirs, |t.files[p]|, hash(t.files[p]))
  }

  lemma PlanGrows(hash: Content -> Sha, t: Tree, done: set<Path>, entries: seq<Entry>, p: Path, id: string)
    requires p in t.files && |p| == 3 && p !in done && PlansOf(hash, t, done, entries)
    requires Describes(hash, t, PlanEntry(hash, t, p, id))
    ensures PlansOf(hash, t, done + {p}, entries + [PlanEntry(hash, t, p, id)])
  {
    var e := PlanEntry(hash, t, p, id);
    assert PlansOf(hash, t, {p}, [e]) by { assert [e][0].source == p; }
    PlansJoin(hash, t, done, entries, {p}, [e]);
  }

  lemma AllGoToRunDir(hash: Content -> Sha, t: Tree, plan: seq<Entry>)
    requires forall i | 0 <= i < |plan| :: Describes(hash, t, plan[i])
    ensures forall i | 0 <= i < |plan| :: GoesToRunDir(hash, t, plan[i])
  {
    forall i | 0 <= i < |plan| ensures GoesToRunDir(hash, t, plan[i]) {
      DescribedGoesToRunDir(hash, t, plan[i]);
    }
  }

  /** The entries of one stream, or none when it must be refused. */
  method PlanStream(hash: Content -> Sha, t: Tree, stream: Path) returns (r: Option<seq<Entry>>)
    requires stream in t.dirs && stream !in t.files && |stream| == 2 && Parent(stream) == Final
    ensures r.None? <==> Unplannable(t, stream)
    ensures r.Some? ==> PlansOf(hash, t, Legacy(t, stream), r.value)
    ensures r.Some? ==> forall i | 0 <= i < |r.value| :: GoesToRunDir(hash, t, r.value[i])
  {
    var rest := Legacy(t, stream);
    if rest == {} {
      return Some([]);
    }
    if RunId(stream[1]).None? || stream + [RunId(stream[1]).value] in t.files {
      return None;
    }
    var id := RunId(stream[1]).value;
    assert stream == ["final", stream[1]];
    var entries: seq<Entry> := [];
    ghost var done: set<Path> := {};
    while rest != {}
      invariant rest + done == Legacy(t, stream) && rest !! done
      invariant PlansOf(hash, t, done, entries)
    {
      var p :| p in rest;
      assert p in Legacy(t, stream) && p[1] == Parent(p)[1];
      PlanGrows(hash, t, done, entries, p, id);
      entries := entries + [PlanEntry(hash, t, p, id)];
      rest, done := rest - {p}, done + {p};
    }
    assert done == Legacy(t, stream);
    AllGoToRunDir(hash, t, entries);
    return Some(entries);
  }

  lemma LegacySplits(t: Tree, done: set<Path>, stream: Path)
    requires stream !in done
    ensures LegacyOf(t, done + {stream}) == LegacyOf(t, done) + Legacy(t, stream)
    ensures LegacyOf(t, done) !! Legacy(t, stream)
  {
  }

  /** Adds the entries of one more stream. */
  method PlanNext(hash: Content -> Sha, t: Tree, done: set<Path>, entries: seq<Entry>, stream: Path)
    returns (r: Option<seq<Entry>>)
    requires stream in Streams(t) - done && PlansOf(hash, t, LegacyOf(t, done), entries)
    ensures r.None? <==> Unplannable(t, stream)
    ensures r.Some? ==> PlansOf(hash, t, LegacyOf(t, done + {stream}), r.value)
  {
    if stream in t.files {
      return None;
    }
    r := PlanStream(hash, t, stream);
    if r.Some? {
      LegacySplits(t, done, stream);
      PlansJoin(hash, t, LegacyOf(t, done), entries, Legacy(t, stream), r.value);
      r := Some(entries + r.value);
    }
  }

  /** Plans every legacy file of the tree, or refuses the tree: the plan then has
      all the properties that PlannedFrom leads to. */
  method BuildPlan(hash: Content -> Sha, t: Tree, expectedNonEmpty: bool) returns (r: Option<seq<Entry>>)
    requires TreeOk(t)
    ensures r.Some? ==> PlannedFrom(hash, t, r.value)
    ensures r.Some? ==> forall i | 0 <= i < |r.value| :: GoesToRunDir(hash, t, r.value[i])
    ensures r.None? <==> Final in t.files || (exists s | s in Streams(t) :: Unplannable(t, s))
                         || (expectedNonEmpty && LegacyOf(t, Streams(t)) == {})
  {
    if Final !in t.dirs {
      NoFinalNoLegacy(t);
      return if expectedNonEmpty || Final in t.files then None else Some([]);
    }
    var rest, done: set<Path>, entries: seq<Entry> := Streams(t), {}, [];
    while rest != {}
      invariant rest + done == Streams(t) && rest !! done
      invariant PlansOf(hash, t, LegacyOf(t, done), entries)
      invariant forall s | s in done :: !Unplannable(t, s)
    {
      var stream :| stream in rest;
      var more := PlanNext(hash, t, done, entries, stream);
      if more.None? {
        return None;
      }
      entries, rest, done := more.value, rest - {stream}, done + {stream};
    }
    assert done == Streams(t);
    AllLegacyCounted(hash, t, entries);
    AllGoToRunDir(hash, t, entries);
    return if expectedNonEmpty && entries == [] then None else Some(entries);
  }

  lemma AllLegacyCounted(hash: Content -> Sha, t: Tree, plan: seq<Entry>)
    requires TreeOk(t) && PlansOf(hash, t, LegacyOf(t, Streams(t)), plan)
    ensures PlannedFrom(hash, t, plan) && (plan == [] <==> LegacyOf(t, Streams(t)) == {})
  {
    if plan != [] {
      assert plan[0].source in LegacyOf(t, Streams(t));
    }
    forall p | p in t.files && |p| == 3 && p[0] == "final" ensures Sources(plan, p) {
      assert Parent(p) in t.dirs && Parent(Parent(p)) == [p[0]] == Final;
      assert p in LegacyOf(t, Streams(t));
    }
  }

  lemma NoFinalNoLegacy(t: Tree)
    requires TreeOk(t) && Final !in t.dirs
    ensures Streams(t) == {} && LegacyOf(t, Streams(t)) == {}
    ensures forall p | p in t.files && |p| == 3 :: p[0] != "final"
  {
    forall p | p in t.files && |p| == 3 ensures p[0] != "final" {
      assert Parent(p) in t.dirs && Parent(Parent(p)) in t.dirs && Parent(Parent(p)) == [p[0]];
    }
  }

  // ----- The backup -----

  /** Writing the manifest may fail with nothing on disk that reads back as the plan. Or
      it may fail with such a manifest there, of digest `sha`: the whole one, when only
      its sync or close fails, or one that is short of its final newline. */
  datatype ManifestFault = ManifestWritten | ManifestUnreadable | ManifestUnconfirmed(sha: Sha)

  datatype BackupFault = NoBackupFault | ObjectFails | ObjectTorn(partial: Content)

  const ManifestPath: Path := ["archive-v2-migration-manifest.json"]

  predicate Below(p: Path, q: Path) { |q| < |p| && p[..|q|] == q }

  /** A new file can be created at the path. */
  predicate Creatable(objects: map<Path, Content>, p: Path) {
    && p !in objects
    && forall q :: q in objects ==> !Below(p, q) && !Below(q, p)
  }

  predicate Saved(hash: Content -> Sha, files: Files, objects: map<Path, Content>, e: Entry) {
    && e.source in files && Matches(hash, files[e.source], e)
    && e.backup in objects && objects[e.backup] == files[e.source]
  }

  /** Neither path is the other or lies below it. */
  predicate Apart(p: Path, q: Path) { p != q && !Below(p, q) && !Below(q, p) }

  predicate ApartSoFar(plan: seq<Entry>, n: nat)
    requires n <= |plan|
  {
    forall j, k | 0 <= j < k < n :: Apart(plan[j].backup, plan[k].backup)
  }

  lemma ApartOneMore(plan: seq<Entry>, n: nat)
    requires n < |plan|
    ensures ApartSoFar(plan, n + 1)
       <==> ApartSoFar(plan, n) && forall j | 0 <= j < n :: Apart(plan[j].backup, plan[n].backup)
    ensures ApartSoFar(plan, |plan|) ==> ApartSoFar(plan, n + 1)
  {
  }

  /** Every object and the manifest have places of their own. */
  predicate Placeable(plan: seq<Entry>) {
    && ApartSoFar(plan, |plan|)
    && (forall i | 0 <= i < |plan| :: Apart(plan[i].backup, ManifestPath))
  }

  predicate SourcesMatch(hash: Content -> Sha, files: Files, plan: seq<Entry>) {
    forall i | 0 <= i < |plan| :: plan[i].source in files && Matches(hash, files[plan[i].source], plan[i])
  }

  predicate NoCopyFails(plan: seq<Entry>, faults: nat -> BackupFault) {
    forall i | 0 <= i < |plan| :: faults(i).NoBackupFault?
  }

  function BackupPaths(plan: seq<Entry>, n: nat): set<Path>
    requires n <= |plan|
  {
    set j | 0 <= j < n :: plan[j].backup
  }

  lemma CreatableExactly(plan: seq<Entry>, n: nat, objects: map<Path, Content>, p: Path)
    requires n <= |plan| && objects.Keys == BackupPaths(plan, n)
    ensures Creatable(objects, p) <==> forall j | 0 <= j < n :: Apart(plan[j].backup, p)
  {
    forall j | 0 <= j < n ensures plan[j].backup in objects {
      assert plan[j].backup in BackupPaths(plan, n);
    }
    forall q | q in objects ensures exists j | 0 <= j < n :: plan[j].backup == q {
      assert q in BackupPaths(plan, n);
    }
  }

  class BackupStore {
    const hash: Content -> Sha
    const digest: seq<Entry> -> Sha
    var present: bool
    var manifest: Option<seq<Entry>>
    var manifestSha: Sha
    var objects: map<Path, Content>

    constructor (hash: Content -> Sha, digest: seq<Entry> -> Sha)
      ensures this.hash == hash && !present && Valid()
    {
      this.hash, this.digest, present, manifest, objects := hash, digest, false, None, map[];
      manifestSha := digest([]);
    }

    function Dir(): BackupDir
      reads this
    {
      BackupDir(manifest, objects, manifestSha)
    }

    /** A backup directory that is not there holds nothing. */
    predicate Valid()
      reads this
    {
      !present ==> manifest.None? && objects == map[]
    }

    /** Copies one source into the store and checks what arrived. */
    method CopyObject(files: Files, e: Entry, fault: BackupFault) returns (ok: bool)
      modifies this`objects
      ensures ok ==> Saved(hash, files, objects, e)
      ensures forall p | p in old(objects) :: p in objects && objects[p] == old(objects)[p]
      ensures objects.Keys <= old(objects).Keys + {e.backup}
      ensures ok
           <==> e.source in files && Matches(hash, files[e.source], e)
                && Creatable(old(objects), e.backup) && fault.NoBackupFault?
    {
      if e.source !in files || |files[e.source]| != e.size || hash(files[e.source]) != e.sha
         || !Creatable(objects, e.backup) || fault.ObjectFails? {
        return false;
      }
      objects := objects[e.backup := if fault.ObjectTorn? then fault.partial else files[e.source]];
      return fault.NoBackupFault?;
    }

    /** Copies the sources one by one until a copy goes wrong. */
    method CopyAll(files: Files, plan: seq<Entry>, faults: nat -> BackupFault) returns (ok: bool)
      requires objects == map[]
      modifies this`objects
      ensures ok ==> objects.Keys == BackupPaths(plan, |plan|)
      ensures ok ==> forall j | 0 <= j < |plan| :: Saved(hash, files, objects, plan[j])
      ensures ok <==> SourcesMatch(hash, files, plan) && NoCopyFails(plan, faults)
                      && ApartSoFar(plan, |plan|)
    {
      for i := 0 to |plan|
        invariant objects.Keys == BackupPaths(plan, i)
        invariant forall j | 0 <= j < i :: Saved(hash, files, objects, plan[j]) && faults(j).NoBackupFault?
        invariant ApartSoFar(plan, i)
      {
        ApartOneMore(plan, i);
        CreatableExactly(plan, i, objects, plan[i].backup);
        ok := CopyObject(files, plan[i], faults(i));
        if !ok {
          return;
        }
        assert BackupPaths(plan, i + 1) == BackupPaths(plan, i) + {plan[i].backup};
      }
      ok := true;
    }

    /** Fills a new backup directory, or accepts an existing one that is complete.
        The manifest is written last. A backup that failed is accepted later exactly
        when every object and a manifest that reads back as the plan had been written. */
    method Backup(files: Files, plan: seq<Entry>, faults: nat -> BackupFault, fault: ManifestFault)
      returns (ok: bool, artifact: Artifact)
      requires Valid()
      modifies this
      ensures Valid()
      ensures old(present) || !ValidPlan(plan) ==> Dir() == old(Dir()) && present == old(present)
      ensures old(present) ==> (ok <==> ValidPlan(plan) && ValidBackup(hash, Dir(), plan))
      ensures ok ==> present && ValidPlan(plan) && artifact.dir == Dir() && Accepted(hash, artifact, plan)
      ensures ok && !old(present) ==> forall i | 0 <= i < |plan| :: Saved(hash, files, objects, plan[i])
      ensures !old(present) && ValidPlan(plan) ==>
                && present
                && (ValidBackup(hash, Dir(), plan)
                    <==> SourcesMatch(hash, files, plan) && Placeable(plan) && NoCopyFails(plan, faults)
                         && !fault.ManifestUnreadable?)
                && (ok <==> ValidBackup(hash, Dir(), plan) && fault.ManifestWritten?)
    {
      artifact := Artifact(Dir(), Dir().sha, |plan|);
      if !ValidPlan(plan) {
        return false, artifact;
      }
      if present {
        return ValidBackup(hash, Dir(), plan), artifact;
      }
      present := true;
      ok := CopyAll(files, plan, faults);
      if ok {
        CreatableExactly(plan, |plan|, objects, ManifestPath);
      }
      if !ok || fault.ManifestUnreadable? || !Creatable(objects, ManifestPath) {
        return false, artifact;
      }
      manifest, manifestSha := Some(plan), if fault.ManifestUnconfirmed? then fault.sha else digest(plan);
      artifact := Artifact(Dir(), digest(plan), |plan|);
      ok := fault.ManifestWritten?;
    }
  }

  /** The objects of a planned tree all have places of their own, so their backup
      succeeds unless something fails. */
  lemma PlannedIsPlaceable(hash: Content -> Sha, t: Tree, plan: seq<Entry>)
    requires PlannedFrom(hash, t, plan)
    ensures Placeable(plan) && SourcesMatch(hash, t.files, plan)
  {
    PlannedIsSeparate(hash, t, plan);
    forall i | 0 <= i < |plan|
      ensures |plan[i].backup| == 4 && Apart(plan[i].backup, ManifestPath)
      ensures plan[i].source in t.files && Matches(hash, t.files[plan[i].source], plan[i])
    {
      assert Describes(hash, t, plan[i]);
      ObjectsApart(plan[i].backup);
    }
  }

  lemma ObjectsApart(p: Path)
    requires |p| == 4 && p[0] == "objects"
    ensures Apart(p, ManifestPath)
  {
    assert p[..1][0] == "objects" && |ManifestPath[0]| != |"objects"|;
  }

  /** A backup of the tree a plan was made from is what Restore relies on. */
  lemma BackupServesRestore(hash: Content -> Sha, origin: Tree, plan: seq<Entry>, b: BackupDir)
    requires forall i | 0 <= i < |plan| :: Saved(hash, origin.files, b.objects, plan[i])
    ensures BackupOf(origin, plan, b)
    ensures b.manifest == Some(plan) ==> ValidBackup(hash, b, plan)
  {
    forall i | 0 <= i < |plan|
      ensures plan[i].source in origin.files && b.objects[plan[i].backup] == origin.files[plan[i].source]
    {
      assert Saved(hash, origin.files, b.objects, plan[i]);
    }
  }
}
