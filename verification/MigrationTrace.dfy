/** The trees an archive has shown, one file-system effect after the other. */
module MigrationTrace {
  import opened MigrationPlan
  import opened MigrationStates

  datatype Effect = Renamed(from: Path, to: Path) | Created(file: Path, content: Content)
                  | Made(dir: Path) | Removed(dir: Path)

  /** The effect leads from one tree to the other. */
  ghost predicate Does(t: Tree, e: Effect, u: Tree) {
    match e
    case Renamed(from, to) => from in t.files && u == Tree((t.files - {from})[to := t.files[from]], t.dirs)
    case Created(p, c) => p !in t.files && u == Tree(t.files[p := c], t.dirs)
    case Made(d) => d !in t.dirs && u == Tree(t.files, t.dirs + {d})
    case Removed(d) => d in t.dirs && u == Tree(t.files, t.dirs - {d})
  }

  ghost predicate OneEffect(t: Tree, u: Tree) {
    exists e :: Does(t, e, u)
  }

  ghost predicate EffectAt(trace: seq<Tree>, k: nat)
    requires 0 < k < |trace|
  {
    OneEffect(trace[k - 1], trace[k])
  }

  /** Every tree comes from the one before it by a single effect. */
  ghost predicate Effects(trace: seq<Tree>) {
    forall k: nat | 0 < k < |trace| :: EffectAt(trace, k)
  }

  lemma EffectsGrow(trace: seq<Tree>, e: Effect, u: Tree)
    requires trace != [] && Effects(trace) && Does(trace[|trace| - 1], e, u)
    ensures Effects(trace + [u])
  {
    forall k: nat | 0 < k < |trace + [u]| ensures EffectAt(trace + [u], k) {
      if k < |trace| {
        assert EffectAt(trace, k);
      } else {
        assert OneEffect(trace[|trace| - 1], u);
      }
    }
  }

  /** The trees with these numbers can all be recovered. */
  ghost predicate AllRecoverable(origin: Tree, plan: seq<Entry>, trace: seq<Tree>, from: nat, to: nat)
    requires Routed(plan) && to <= |trace|
  {
    forall k | from <= k < to :: Recoverable(origin, plan, trace[k])
  }

  lemma RecoverableJoin(origin: Tree, plan: seq<Entry>, earlier: seq<Tree>, trace: seq<Tree>, from: nat, to: nat)
    requires Routed(plan) && earlier <= trace && to <= |trace|
    requires AllRecoverable(origin, plan, earlier, from, |earlier|)
    requires AllRecoverable(origin, plan, trace, |earlier|, to)
    ensures AllRecoverable(origin, plan, trace, from, to)
  {
  }

  lemma RecoverableStep(origin: Tree, plan: seq<Entry>, earlier: seq<Tree>, trace: seq<Tree>, from: nat, u: Tree)
    requires Routed(plan) && (trace == earlier || trace == earlier + [u])
    requires AllRecoverable(origin, plan, earlier, from, |earlier|) && Recoverable(origin, plan, u)
    ensures AllRecoverable(origin, plan, trace, from, |trace|)
  {
  }

  lemma RecoverableLast(origin: Tree, plan: seq<Entry>, trace: seq<Tree>, from: nat, u: Tree)
    requires Routed(plan) && trace != [] && trace[|trace| - 1] == u
    requires AllRecoverable(origin, plan, trace, from, |trace| - 1)
    ensures Recoverable(origin, plan, u) ==> AllRecoverable(origin, plan, trace, from, |trace|)
  {
  }

  /** Between these numbers only directories between `lo` and `hi` came and went. */
  ghost predicate DirSteps(trace: seq<Tree>, from: nat, to: nat, files: Files, lo: set<Path>, hi: set<Path>)
    requires to <= |trace|
  {
    forall k | from <= k < to :: trace[k].files == files && TreeOk(trace[k]) && lo <= trace[k].dirs <= hi
  }
}
