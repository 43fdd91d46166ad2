/** What every run of a Video Cover runtime keeps. */
module CoverTheorems {
  import opened Common
  import opened CoverState

  predicate Rising(feed: seq<nat>) {
    forall i, j | 0 <= i < j < |feed| :: feed[i] < feed[j]
  }

  /** Readiness, the known Applied state and the witness stand or fall together,
      and what is known is the last apply that was witnessed. */
  predicate GraphTrue(s: State, watermark: Layer, last: Applied) {
    && last.Known? && s.graph.cover == CoverLayer(last)
    && s.graph.watermark == watermark
    && (s.readiness.Ready? <==> s.graph.applied.Known?) && (s.readiness.Ready? <==> s.graph.seen.Witness?)
    && (s.readiness.Ready? <==> s.error.NoCode?)
    && (if s.graph.applied.Known?
        then s.graph.applied == last && s.graph.lastGood.NoLastGood?
             && s.desired.revision == last.revision && s.desired.active == last.active
             && s.desired.variant == last.variant
             && s.graph.seen == Witness(s.generation, last.revision, last.active, s.graph.cover, watermark)
        else s.graph.lastGood == LastGood(last) && s.desired.revision >= last.revision)
  }

  /** The state says of exactly this picture that it is the one shown. */
  predicate Shows(s: State, active: bool, revision: nat, asset: Option<Asset>) {
    var variant := if active && asset.Some? then asset.value.variant else "";
    && s.graph.applied == Known(active, revision, variant) && s.graph.lastGood.NoLastGood?
    && s.graph.cover == Layer(active, revision, variant) && s.desired == Desired(active, revision, active, variant)
    && s.asset == (if active then asset else None) && s.readiness.Ready? && s.error.NoCode?
    && s.graph.seen == Witness(s.generation, revision, active, Layer(active, revision, variant), s.graph.watermark)
  }

  ghost predicate TableOk(t: Table) {
    && |t.order| <= 256
    && (forall i, j | 0 <= i < j < |t.order| :: t.order[i] != t.order[j])
    && (forall k :: k in t.order <==> k in t.entries)
  }

  /** Before the first witness nothing is claimed. */
  predicate Unwitnessed(s: State) {
    s.graph.applied.Unknown? && s.graph.seen.NoWitness? && s.graph.lastGood.NoLastGood? && !s.readiness.Ready?
  }

  ghost predicate Inv(s: Session) {
    && Rising(s.graphed.feed) && TableOk(s.table)
    && (s.status.Starting? ==> s.state.job == s.start.job && s.graphed.last.Unknown?)
    && (s.status.Starting? && s.state.job > 0 ==> s.state.desired.revision == s.start.revision)
    && (s.status.Running? && s.state.job > 0 ==> s.graphed.last.Known?)
    && (s.state.job > 0 ==>
          && (if s.graphed.last.Known? then GraphTrue(s.state, s.watermark, s.graphed.last) else Unwitnessed(s.state))
          && forall i | 0 <= i < |s.graphed.feed| :: s.graphed.feed[i] <= s.state.desired.revision)
  }

  lemma PreparedInv(generation: nat, start: Start, watermark: Layer)
    ensures Inv(PreparedRuntime(generation, start, watermark))
  {
  }

  // ----- The replay table -----

  lemma StoredOk(t: Table, key: string, replay: Replay)
    requires TableOk(t)
    ensures TableOk(Stored(t, key, replay)) && key in Stored(t, key, replay).entries
    ensures Stored(t, key, replay).entries[key] == replay
    ensures forall k | k in Stored(t, key, replay).entries && k != key ::
              k in t.entries && Stored(t, key, replay).entries[k] == t.entries[k]
    ensures key !in t.entries ==>
              Stored(t, key, replay).order == if |t.order| < MaxReplays then t.order + [key] else t.order[1..] + [key]
  {
    var order := if key in t.entries then t.order else t.order + [key];
    var entries := t.entries[key := replay];
    assert forall k :: k in order <==> k in entries;
    if |order| > MaxReplays {
      var smaller := Table(entries - {order[0]}, order[1..]);
      assert order[0] == t.order[0] && order[0] != key;
      assert Trimmed(Table(entries, order)) == Trimmed(smaller) == smaller;
      assert order[1..] == t.order[1..] + [key];
      forall k ensures k in smaller.order <==> k in smaller.entries {
        assert k in order <==> k in entries;
        assert k in order <==> k == order[0] || k in order[1..];
      }
    }
  }

  // ----- Preservation -----

  lemma RejectKeeps(s: Session, r: Request, fingerprint: Fingerprint, code: Code)
    requires Inv(s)
    ensures Inv(Rejecting(s, r, fingerprint, code).0)
  {
    StoredOk(s.table, r.key, Replay(fingerprint, RejectedFrom(Snapshot(s.state, s.watermark), r, code)));
  }

  lemma DeliverKeeps(s: Session, r: Request, fingerprint: Fingerprint, sight: Sight)
    requires Inv(s) && s.status.Running? && s.state.job > 0 && r.revision > s.state.desired.revision
    ensures Inv(Delivering(s, r, fingerprint, sight).0)
  {
    StoredOk(s.table, r.key, Replay(fingerprint, Delivering(s, r, fingerprint, sight).1.response));
  }

  lemma ApplyKeeps(s: Session, r: Request, fingerprint: Fingerprint, load: Load, sight: Sight)
    requires Inv(s)
    ensures Inv(Applying(s, r, fingerprint, load, sight).0)
  {
    if s.status.Running? && s.state.job > 0 && r.key !in s.table.entries {
      RejectKeeps(s, r, fingerprint, Fence(s.state, r));
      RejectKeeps(s, r, fingerprint, LoadCode(r, load));
      if Fence(s.state, r).NoCode? {
        DeliverKeeps(s, r, fingerprint, sight);
      }
    }
  }

  lemma StepKeeps(s: Session, op: Op)
    requires Inv(s)
    ensures Inv(Step(s, op))
  {
    if op.Apply? {
      ApplyKeeps(s, op.request, op.fingerprint, op.load, op.sight);
    }
  }

  lemma {:induction false} RunKeeps(s: Session, ops: seq<Op>)
    requires Inv(s)
    ensures Inv(Run(s, ops))
    decreases |ops|
  {
    if ops != [] {
      StepKeeps(s, ops[0]);
      RunKeeps(Step(s, ops[0]), ops[1..]);
    }
  }

  // ----- What runs guarantee -----

  /** What was witnessed was asked for: by the start that was committed, or by a request
      whose own delivery was witnessed. */
  ghost predicate WasAsked(last: Applied, start: Start, ops: seq<Op>) {
    last.Known? ==>
      || (Op.Commit in ops && last == Known(start.active, start.revision,
                                            if start.active && start.asset.Some? then start.asset.value.variant
                                            else ""))
      || exists op | op in ops :: op.Apply? && AsksFor(op.request, last) && op.sight.Witnessed?
  }

  predicate AsksFor(r: Request, shown: Applied) {
    shown == Known(r.active, r.revision, if r.active && r.asset.Some? then r.asset.value.variant else "")
  }

  lemma StepAsked(s: Session, op: Op, done: seq<Op>)
    requires WasAsked(s.graphed.last, s.start, done)
    ensures Step(s, op).start == s.start && WasAsked(Step(s, op).graphed.last, s.start, done + [op])
  {
    var u := Step(s, op);
    if u.graphed.last == s.graphed.last {
      if other :| other in done && other.Apply? && AsksFor(other.request, u.graphed.last) && other.sight.Witnessed? {
        assert other in done + [op];
      }
    } else if op.Apply? {
      assert op in done + [op] && AsksFor(op.request, u.graphed.last);
    }
  }

  lemma {:induction false} RunAsked(s: Session, done: seq<Op>, ops: seq<Op>)
    requires WasAsked(s.graphed.last, s.start, done)
    ensures WasAsked(Run(s, ops).graphed.last, s.start, done + ops)
    decreases |ops|
  {
    if ops == [] {
      assert done + ops == done;
    } else {
      StepAsked(s, ops[0], done);
      RunAsked(Step(s, ops[0]), done + [ops[0]], ops[1..]);
      assert done + [ops[0]] + ops[1..] == done + ops;
    }
  }

  /** No revision reaches the feed twice, and known Applied state is never a guess:
      it is what the start or request asked for whose delivery was the last to be
      witnessed, or that is kept as last good. */
  lemma RunsTellTheTruth(generation: nat, start: Start, watermark: Layer, ops: seq<Op>)
    requires start.job > 0
    ensures var s := Run(PreparedRuntime(generation, start, watermark), ops);
            && Rising(s.graphed.feed) && WasAsked(s.graphed.last, start, ops)
            && (s.status.Starting? ==> Unwitnessed(s.state))
            && (s.status.Running? ==>
                  && s.state.job == start.job && s.state.generation == generation
                  && GraphTrue(s.state, s.watermark, s.graphed.last)
                  && Snapshot(s.state, s.watermark) == s.state)
  {
    var s := PreparedRuntime(generation, start, watermark);
    PreparedInv(generation, start, watermark);
    RunKeeps(s, ops);
    RunKeepsPast(s, ops, start.job, generation, 0);
    RunAsked(s, [], ops);
    assert [] + ops == ops;
  }

  /** Until it stops, a negotiated process stays on its job and generation and its
      desired revision does not fall. */
  predicate Past(s: Session, job: nat, generation: nat, revision: nat) {
    && (!s.status.Stopped? ==>
          s.state.job == job && s.state.generation == generation && s.state.desired.revision >= revision)
    && (s.status.Starting? ==> s.start.revision >= revision)
  }

  lemma StepKeepsPast(s: Session, op: Op, job: nat, generation: nat, revision: nat)
    requires Past(s, job, generation, revision)
    ensures Past(Step(s, op), job, generation, revision)
  {
  }

  lemma {:induction false} RunKeepsPast(s: Session, ops: seq<Op>, job: nat, generation: nat, revision: nat)
    requires Past(s, job, generation, revision)
    ensures Past(Run(s, ops), job, generation, revision)
    decreases |ops|
  {
    if ops != [] {
      StepKeepsPast(s, ops[0], job, generation, revision);
      RunKeepsPast(Step(s, ops[0]), ops[1..], job, generation, revision);
    }
  }

  predicate Accepted(result: Result) { result.Answered? && !result.response.outcome.WasRejected? }

  /** A fresh request is accepted exactly when it passes every fence and its asset
      loads; whatever is not accepted leaves state, feed and watermark alone. */
  lemma AcceptedExactly(s: Session, r: Request, fingerprint: Fingerprint, load: Load, sight: Sight)
    requires s.status.Running? && s.state.job > 0 && r.key !in s.table.entries
    ensures var (after, result) := Applying(s, r, fingerprint, load, sight);
            && (Accepted(result) <==> r.job == s.state.job && r.expected == s.state.generation
                                      && r.revision > s.state.desired.revision && (r.active ==> load.Loaded?))
            && (!Accepted(result) ==> after.(table := s.table) == s)
  {
  }

  /** What an accepted request comes to, read off its own fields: it is applied exactly
      when its delivery was witnessed, and then the state shows this very request; and
      otherwise nothing is claimed but the last apply that was witnessed. */
  lemma OutcomeExactly(s: Session, r: Request, fingerprint: Fingerprint, load: Load, sight: Sight)
    requires Inv(s) && s.status.Running? && s.state.job > 0 && r.key !in s.table.entries
    requires r.active <==> r.asset.Some?
    requires Accepted(Applying(s, r, fingerprint, load, sight).1)
    ensures var (after, result) := Applying(s, r, fingerprint, load, sight);
            var response, state := result.response, after.state;
            && response.actual == state && response.requested == r.revision
            && response.job == r.job == state.job && response.generation == r.expected == state.generation
            && (response.outcome.WasApplied? <==> sight.Witnessed?)
            && (response.outcome.WasAmbiguous? <==> sight.Unobserved?)
            && state.desired == Desired(r.active, r.revision, r.active, if r.active then r.asset.value.variant else "")
            && state.asset == r.asset && state.graph.watermark == s.watermark == after.watermark
            && (sight.Witnessed? ==> Shows(state, r.active, r.revision, r.asset) && response.error.NoCode?)
            && (sight.Unobserved? ==>
                  && state.graph.applied.Unknown? && state.graph.lastGood == LastGood(s.graphed.last)
                  && state.graph.cover == s.state.graph.cover && state.graph.seen.NoWitness?
                  && state.readiness.Unsure? && state.error.Ambiguous? && response.error.Ambiguous?)
            && after.graphed.feed
               == s.graphed.feed + if sight == Unobserved(false) then [] else [r.revision]
  {
  }

  /** Each fence has its own code, in this order, and a failed load keeps its own. */
  lemma CodesExactly(s: Session, r: Request, fingerprint: Fingerprint, load: Load, sight: Sight)
    requires s.status.Running? && s.state.job > 0 && r.key !in s.table.entries
    ensures var result, current := Applying(s, r, fingerprint, load, sight).1, s.state;
            && (r.job != current.job ==> Rejects(result, StaleJob))
            && (r.job == current.job && r.expected != current.generation ==> Rejects(result, StaleGeneration))
            && (r.job == current.job && r.expected == current.generation ==>
                  && (r.revision < current.desired.revision ==> Rejects(result, StaleRevision))
                  && (r.revision == current.desired.revision ==> Rejects(result, RevisionConflict))
                  && (r.revision > current.desired.revision && r.active ==>
                        && (load.NoLoader? ==> Rejects(result, CapabilityRequired))
                        && (load == LoadFailed(NoCode) ==> Rejects(result, Media(Timeout)))
                        && (load == LoadFailed(InvalidRequest) ==> result == Refused(InvalidRequest))
                        && (load.LoadFailed? && !load.code.NoCode? && !load.code.InvalidRequest? ==>
                              Rejects(result, load.code))))
  {
  }

  predicate Rejects(result: Result, code: Code) {
    result.Answered? && result.response.outcome.WasRejected? && result.response.error == code
  }

  /** The same fences for a process that no longer runs, against its last state. */
  lemma StoppedCodesExactly(s: Session, r: Request, fingerprint: Fingerprint, load: Load, sight: Sight)
    requires !s.status.Running? && s.state.job > 0 && s.state.generation > 0
    ensures var result, current := Applying(s, r, fingerprint, load, sight).1, s.state;
            && (r.job != current.job ==> Rejects(result, StaleJob))
            && (r.job == current.job && r.expected != current.generation ==> Rejects(result, StaleGeneration))
            && (r.job == current.job && r.expected == current.generation ==>
                  && (r.revision < current.desired.revision ==> Rejects(result, StaleRevision))
                  && (r.revision == current.desired.revision ==> Rejects(result, RevisionConflict))
                  && (r.revision > current.desired.revision ==> Rejects(result, GraphUnavailable)))
  {
  }

  /** A report binds the watermark that is current to the state and to its witness, and
      changes nothing else, whatever the state says. */
  lemma SnapshotBindsWatermark(s: State, watermark: Layer)
    ensures var shown := Snapshot(s, watermark);
            && shown.graph.watermark == watermark && shown.(graph := s.graph) == s
            && shown.graph.applied == s.graph.applied && shown.graph.cover == s.graph.cover
            && shown.graph.lastGood == s.graph.lastGood
            && shown.graph.seen == (if s.graph.seen.Witness? then s.graph.seen.(watermark := watermark) else NoWitness)
  {
  }

  /** Retirement keeps a terminal state that claims nothing but the last apply that was
      witnessed, and nothing else. */
  lemma RetiredKeepsLastGood(s: Session)
    requires Inv(s) && s.state.job > 0 && s.state.generation > 0
    ensures var after := Retiring(s);
            && after.status.Stopped? && after.state.job == 0 && after.table == Table(map[], [])
            && after.terminal.Terminal? && after.terminal.last.job == s.state.job
            && after.terminal.last.generation == s.state.generation && after.terminal.last.desired == s.state.desired
            && after.terminal.last.readiness.NotReady? && after.terminal.last.error.GraphUnavailable?
            && after.terminal.last.graph.applied.Unknown? && after.terminal.last.graph.seen.NoWitness?
            && after.terminal.last.graph.lastGood
               == (if s.graphed.last.Known? then LastGood(s.graphed.last) else NoLastGood)
  {
  }

  /** An observed watermark is the one asked for under the next revision; an unobserved
      one takes the witness and keeps the last good state. */
  lemma WatermarkExactly(s: Session, enabled: bool, variant: string, observed: bool)
    requires Inv(s) && s.state.job > 0 && s.graphed.last.Known?
    ensures var after := Watermarking(s, enabled, variant, observed);
            && after.graphed == s.graphed && after.state.desired == s.state.desired
            && (observed ==>
                  && after.watermark == Layer(enabled, (s.watermark.revision + 1) % 0x1_0000_0000_0000_0000,
                                              if enabled then variant else "")
                  && after.state.graph.applied == s.state.graph.applied && after.state.readiness == s.state.readiness)
            && (!observed ==>
                  && after.watermark == s.watermark && after.state.readiness.Unsure?
                  && after.state.error.GraphUnavailable? && after.state.graph.applied.Unknown?
                  && after.state.graph.seen.NoWitness? && after.state.graph.lastGood == LastGood(s.graphed.last))
  {
  }

  /** A refusal reports the state as it stands, except that a fault of the graph or
      of an asset shows as not ready; a key that is bound to another request refuses
      this one and binds nothing new. */
  lemma RefusalsReportTheState(s: Session, r: Request, fingerprint: Fingerprint, load: Load, sight: Sight)
    requires Inv(s) && s.status.Running? && s.state.job > 0
    requires r.key in s.table.entries ==> s.table.entries[r.key].fingerprint != fingerprint
    ensures var (after, result) := Applying(s, r, fingerprint, load, sight);
            result.Answered? && result.response.outcome.WasRejected? ==>
              && result.response.requested == r.revision
              && result.response.job == s.state.job && result.response.generation == s.state.generation
              && result.response.actual.graph == s.state.graph && result.response.actual.desired == s.state.desired
              && (var code := result.response.error;
                  if code.Media? || code.GraphUnavailable? || code.CapabilityRequired?
                  then result.response.actual == s.state.(readiness := NotReady, error := code)
                  else result.response.actual == s.state)
    ensures r.key in s.table.entries ==>
              Applying(s, r, fingerprint, load, sight) == (s, Answered(RejectedFrom(s.state, r, KeyConflict)))
  {
    assert Snapshot(s.state, s.watermark) == s.state;
  }

  /** Once accepted, a request is never delivered again: not by a replay, and not
      after newer keys have pushed its replay entry out. */
  lemma AcceptedOnce(s: Session, r: Request, fingerprint: Fingerprint, load: Load, sight: Sight, ops: seq<Op>,
                     load2: Load, sight2: Sight)
    requires s.status.Running? && s.state.job > 0 && r.key !in s.table.entries
    requires Accepted(Applying(s, r, fingerprint, load, sight).1)
    ensures var later := Run(Applying(s, r, fingerprint, load, sight).0, ops);
            var (after, result) := Applying(later, r, fingerprint, load2, sight2);
            && after.graphed == later.graphed && after.state == later.state
            && (Accepted(result) ==>
                  r.key in later.table.entries && result.response == later.table.entries[r.key].response)
  {
    var after := Applying(s, r, fingerprint, load, sight).0;
    assert after.state.desired.revision == r.revision;
    RunKeepsPast(after, ops, r.job, r.expected, r.revision);
  }

  // ----- How long a replay lasts -----

  /** Key `k` is remembered, with exactly `newer` keys stored after it. */
  ghost predicate RememberedBy(t: Table, k: string, replay: Replay, newer: nat) {
    && k in t.entries && t.entries[k] == replay
    && newer < |t.order| && t.order[|t.order| - 1 - newer] == k
  }

  /** How many of these operations put a new key into the table. */
  ghost function KeysStored(s: Session, ops: seq<Op>): nat
    decreases |ops|
  {
    if ops == [] then 0
    else (if Step(s, ops[0]).table != s.table then 1 else 0) + KeysStored(Step(s, ops[0]), ops[1..])
  }

  lemma StoreRemembers(t: Table, key: string, replay: Replay, k: string, kept: Replay, newer: nat)
    requires TableOk(t) && RememberedBy(t, k, kept, newer) && key !in t.entries
    ensures if newer < MaxReplays - 1 then RememberedBy(Stored(t, key, replay), k, kept, newer + 1)
            else k !in Stored(t, key, replay).entries
  {
    StoredOk(t, key, replay);
    var u := Stored(t, key, replay);
    if newer < MaxReplays - 1 {
      assert u.order[|u.order| - 2 - newer] == k;
      assert k in u.order;
    } else {
      assert t.order[0] == k && |t.order| == MaxReplays;
      OldestIsDropped(t, key, replay);
    }
  }

  /** An operation stores the key of a fresh answered request, or leaves the table. */
  lemma StepRemembers(s: Session, op: Op, k: string, kept: Replay, newer: nat)
    requires Inv(s) && RememberedBy(s.table, k, kept, newer) && !op.Retire?
    ensures if Step(s, op).table == s.table then RememberedBy(Step(s, op).table, k, kept, newer)
            else if newer < MaxReplays - 1 then RememberedBy(Step(s, op).table, k, kept, newer + 1)
            else k !in Step(s, op).table.entries
  {
    if op.Apply? {
      var (after, result) := Applying(s, op.request, op.fingerprint, op.load, op.sight);
      if after.table != s.table {
        StoreRemembers(s.table, op.request.key, Replay(op.fingerprint, result.response), k, kept, newer);
      }
    }
  }

  lemma {:induction false} RunRemembers(s: Session, ops: seq<Op>, k: string, kept: Replay, newer: nat)
    requires Inv(s) && RememberedBy(s.table, k, kept, newer) && newer + KeysStored(s, ops) < MaxReplays
    requires forall op | op in ops :: !op.Retire?
    ensures RememberedBy(Run(s, ops).table, k, kept, newer + KeysStored(s, ops))
    decreases |ops|
  {
    if ops != [] {
      StepKeeps(s, ops[0]);
      StepRemembers(s, ops[0], k, kept, newer);
      RunRemembers(Step(s, ops[0]), ops[1..], k, kept, if Step(s, ops[0]).table == s.table then newer else newer + 1);
    }
  }

  predicate Spares(ops: seq<Op>, k: string) {
    forall op | op in ops :: !op.Retire? && (op.Apply? ==> op.request.key != k)
  }

  /** A key that has been dropped does not come back by itself. */
  lemma {:induction false} DroppedStaysOut(s: Session, ops: seq<Op>, k: string)
    requires Inv(s) && k !in s.table.entries && Spares(ops, k)
    ensures k !in Run(s, ops).table.entries
    decreases |ops|
  {
    if ops != [] {
      StepKeeps(s, ops[0]);
      if ops[0].Apply? {
        var op := ops[0];
        var (after, result) := Applying(s, op.request, op.fingerprint, op.load, op.sight);
        if after.table != s.table {
          StoredOk(s.table, op.request.key, Replay(op.fingerprint, result.response));
        }
      }
      DroppedStaysOut(Step(s, ops[0]), ops[1..], k);
    }
  }

  lemma {:induction false} RunForgets(s: Session, ops: seq<Op>, k: string, kept: Replay, newer: nat)
    requires Inv(s) && RememberedBy(s.table, k, kept, newer) && newer < MaxReplays <= newer + KeysStored(s, ops)
    requires Spares(ops, k)
    ensures k !in Run(s, ops).table.entries
    decreases |ops|
  {
    if ops != [] {
      var u := Step(s, ops[0]);
      StepKeeps(s, ops[0]);
      StepRemembers(s, ops[0], k, kept, newer);
      if u.table != s.table && newer == MaxReplays - 1 {
        DroppedStaysOut(u, ops[1..], k);
      } else {
        RunForgets(u, ops[1..], k, kept, if u.table == s.table then newer else newer + 1);
      }
    }
  }

  lemma FreshIsStored(s: Session, r: Request, fingerprint: Fingerprint, load: Load, sight: Sight)
    requires Inv(s) && s.status.Running? && s.state.job > 0 && r.key !in s.table.entries
    requires Applying(s, r, fingerprint, load, sight).1.Answered?
    ensures var (after, result) := Applying(s, r, fingerprint, load, sight);
            && RememberedBy(after.table, r.key, Replay(fingerprint, result.response), 0) && after.status.Running?
            && after.state.job > 0
  {
    var (after, result) := Applying(s, r, fingerprint, load, sight);
    var kept := Replay(fingerprint, result.response);
    StoredOk(s.table, r.key, kept);
    assert after.table == Stored(s.table, r.key, kept);
    assert after.table.order[|after.table.order| - 1] == r.key;
  }

  lemma KeptIsAnswered(s: Session, r: Request, fingerprint: Fingerprint, response: Response, newer: nat, load: Load,
                       sight: Sight)
    requires s.status.Running? && s.state.job > 0 && RememberedBy(s.table, r.key, Replay(fingerprint, response), newer)
    ensures Applying(s, r, fingerprint, load, sight) == (s, Answered(response))
  {
  }

  /** Until 256 further keys have been stored the same request gets the very same
      answer, and nothing changes; then its entry is gone. */
  lemma ReplayIsExact(s: Session, r: Request, fingerprint: Fingerprint, load: Load, sight: Sight, ops: seq<Op>,
                      load2: Load, sight2: Sight)
    requires Inv(s) && s.status.Running? && s.state.job > 0 && r.key !in s.table.entries
    requires Applying(s, r, fingerprint, load, sight).1.Answered?
    requires forall op | op in ops :: op.Apply? || op.Watermark?
    ensures var (after, result) := Applying(s, r, fingerprint, load, sight);
            var later := Run(after, ops);
            && (KeysStored(after, ops) < 256 ==>
                  Applying(later, r, fingerprint, load2, sight2) == (later, result))
            && (Spares(ops, r.key) ==>
                  (r.key in later.table.entries <==> KeysStored(after, ops) < 256))
  {
    var (after, result) := Applying(s, r, fingerprint, load, sight);
    var kept := Replay(fingerprint, result.response);
    FreshIsStored(s, r, fingerprint, load, sight);
    ApplyKeeps(s, r, fingerprint, load, sight);
    if KeysStored(after, ops) < MaxReplays {
      RunRemembers(after, ops, r.key, kept, 0);
      RunGoesOn(after, ops);
      KeptIsAnswered(Run(after, ops), r, fingerprint, result.response, KeysStored(after, ops), load2, sight2);
    } else if Spares(ops, r.key) {
      RunForgets(after, ops, r.key, kept, 0);
    }
  }

  lemma {:induction false} RunGoesOn(s: Session, ops: seq<Op>)
    requires s.status.Running? && s.state.job > 0 && forall op | op in ops :: op.Apply? || op.Watermark?
    ensures Run(s, ops).status.Running? && Run(s, ops).state.job > 0
    decreases |ops|
  {
    if ops != [] {
      RunGoesOn(Step(s, ops[0]), ops[1..]);
    }
  }

  /** The 256th key stored after it pushes an entry out. */
  lemma OldestIsDropped(t: Table, key: string, replay: Replay)
    requires TableOk(t) && |t.order| == MaxReplays && key !in t.entries
    ensures t.order[0] !in Stored(t, key, replay).entries
    ensures forall k | k in t.entries && k != t.order[0] :: k in Stored(t, key, replay).entries
  {
    StoredOk(t, key, replay);
    var u := Stored(t, key, replay);
    forall k | k in t.entries && k != t.order[0] ensures k in u.order {
      var i :| 0 <= i < |t.order| && t.order[i] == k;
      assert u.order[i - 1] == k;
    }
  }

  /** A process that no longer runs accepts nothing and forgets nothing. */
  lemma StoppedOnlyRejects(s: Session, r: Request, fingerprint: Fingerprint, load: Load, sight: Sight)
    requires !s.status.Running?
    ensures var (after, result) := Applying(s, r, fingerprint, load, sight);
            && after == s && !Accepted(result)
            && (result.Answered? && Fence(RejectionState(s).last, r).NoCode?
                ==> result.response.actual.readiness.NotReady? && result.response.actual.graph.applied.Unknown?)
  {
  }
}
