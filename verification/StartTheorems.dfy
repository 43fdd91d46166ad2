/** The promises of the two-phase start, over every run of the protocol. */
module StartTheorems {
  import opened Common
  import opened StartProtocol
  import opened StartSafety

  /** The process table never shows a second owner beside a prepared start. */
  predicate SlotExclusive(s: State)
    requires TableOk(s)
  {
    forall k, l | k in s.processes && l in s.processes
      :: (s.tracked[s.processes[k]].preparation.Held?
          && OwnsSlot(s.tracked[s.processes[k]]) && OwnsSlot(s.tracked[s.processes[l]])) ==> k == l
  }

  lemma InvMeansExclusive(s: State)
    requires Inv(s)
    ensures SlotExclusive(s)
  {
    forall k, l | k in s.processes && l in s.processes && k != l
      && s.tracked[s.processes[k]].preparation.Held? && OwnsSlot(s.tracked[s.processes[k]])
      ensures !OwnsSlot(s.tracked[s.processes[l]])
    {
      assert s.tracked[s.processes[l]].stream == l && s.tracked[s.processes[k]].stream == k;
      assert !Attached(s.tracked[s.processes[l]]);
    }
  }

  /** In every reachable state a prepared start that owns the slot is the only
      owner in the table, and no other record has a live process. */
  lemma PreparedStartOwnsAlone(steps: seq<Step>)
    requires TimelyRun(InitialState, steps)
    ensures var s := Run(InitialState, steps);
      && SlotExclusive(s)
      && forall i, j | 0 <= i < |s.tracked| && 0 <= j < |s.tracked| && i != j
           :: s.tracked[i].preparation.Held? && OwnsSlot(s.tracked[i]) ==> !s.tracked[j].process.Alive?
  {
    RunKeeps(InitialState, steps);
    var s := Run(InitialState, steps);
    InvMeansExclusive(s);
    forall j | 0 <= j < |s.tracked| && s.tracked[j].process.Alive?
      ensures Attached(s.tracked[j])
    {
      assert RecordOk(s.tracked[j]);
    }
  }

  /** In every reachable state a prepared start that no longer owns the slot has
      closed prepareDone, has had its process reaped (if one was installed),
      has its cleanup finished with the bridges closed exactly once, and rests
      in a terminal phase. */
  lemma ReleasedMeansDrained(steps: seq<Step>, i: nat)
    requires TimelyRun(InitialState, steps) && i < |Run(InitialState, steps).tracked|
    ensures var t := Run(InitialState, steps).tracked[i];
      t.preparation.Held? && !OwnsSlot(t) ==> Drained(t, t.preparation.p)
  {
    RunKeeps(InitialState, steps);
    assert RecordOk(Run(InitialState, steps).tracked[i]);
  }

  /** No channel is closed twice, no bridge closure or feed is closed twice, and
      no reaper ever finds another record in its place. */
  lemma ClosedAtMostOnce(steps: seq<Step>, i: nat)
    requires TimelyRun(InitialState, steps) && i < |Run(InitialState, steps).tracked|
    ensures var t := Run(InitialState, steps).tracked[i];
      && t.feedCloses <= 1 && !t.waiter.Lost?
      && (t.preparation.Held? ==>
            var p := t.preparation.p;
            p.channels.exited <= 1 && p.channels.cleaned <= 1 && p.channels.prepared <= 1 && p.bridges.runs <= 1)
  {
    RunKeeps(InitialState, steps);
    assert RecordOk(Run(InitialState, steps).tracked[i]);
  }

  // ----- Phases never come back -----

  predicate TerminalAt(s: State, i: nat) {
    i < |s.tracked| && s.tracked[i].preparation.Held? && s.tracked[i].preparation.p.phase.Terminal()
  }

  predicate RunningReported(s: State, i: nat) {
    i < |s.tracked| && s.tracked[i].preparation.Held? && s.tracked[i].preparation.p.commit.Committed?
  }

  /** What no action takes back: a terminal phase, a claim, an unreported commit. */
  predicate Forward(p: Preparation, q: Preparation) {
    && (p.phase.Terminal() ==> q.phase.Terminal() && (q.commit.Committed? ==> p.commit.Committed?))
    && (p.expiryClaimed ==> q.expiryClaimed)
    && (!p.commit.NoCommit? ==> !q.commit.NoCommit?)
  }

  predicate Advances(p: Preparation, u: Tracked) {
    u.preparation.Held? && Forward(p, u.preparation.p)
  }

  lemma OwnerAdvances(t: Tracked, p: Preparation, here: bool, a: OwnerAction)
    requires t.preparation == Held(p)
    ensures Advances(p, ApplyOwner(t, p, here, a))
  {
  }

  lemma ClaimAdvances(t: Tracked, p: Preparation, here: bool, listed: bool, a: ClaimAction)
    requires t.preparation == Held(p)
    ensures Advances(p, ApplyClaim(t, p, here, listed, a))
  {
  }

  lemma AbortAdvances(t: Tracked, p: Preparation, here: bool, a: AbortAction)
    requires t.preparation == Held(p)
    ensures Advances(p, ApplyAbort(t, p, here, a))
  {
  }

  lemma CleanupAdvances(t: Tracked, p: Preparation, a: CleanupAction)
    requires t.preparation == Held(p)
    ensures Advances(p, ApplyCleanup(t, p, a))
  {
  }

  lemma ExitAdvances(t: Tracked, p: Preparation, here: bool, clean: bool)
    requires t.preparation == Held(p)
    ensures Advances(p, ApplyExit(t, here, clean))
  {
  }

  lemma ApplyAdvances(t: Tracked, p: Preparation, here: bool, listed: bool, a: Action)
    requires t.preparation == Held(p)
    ensures Advances(p, Apply(t, here, listed, a))
  {
    match a
    case Owner(o) => OwnerAdvances(t, p, here, o);
    case Claim(c) => ClaimAdvances(t, p, here, listed, c);
    case Abort(b) => AbortAdvances(t, p, here, b);
    case Cleanup(k) => CleanupAdvances(t, p, k);
    case WaitExit(clean) => ExitAdvances(t, p, here, clean);
    case Wait(_) =>
    case ProcessDies =>
    case StopRequest =>
  }

  lemma RecordAfter(s: State, step: Step, i: nat)
    requires TableOk(s) && i < |s.tracked| && s.tracked[i].preparation.Held?
    ensures i < |Do(s, step).tracked|
    ensures Do(s, step).tracked[i]
            == if step.Act? && step.i == i then Apply(s.tracked[i], Here(s, i), Listed(s, i), step.a) else
               if (step.LegacyAbandon? || step.LegacyInstall?) && step.i == i && s.tracked[i].starter.Reserving?
               then s.tracked[i].(starter := Over) else s.tracked[i]
  {
    if step.Act? && step.i < |s.tracked| {
      var t := s.tracked[step.i];
      if t.preparation.Held? {
        RememberFields(s.(tracked := s.tracked[step.i := Apply(t, Here(s, step.i), Listed(s, step.i), step.a)]),
                       t.preparation.p.identity.start);
      }
    }
  }

  /** The terminal phases are absorbing as a set, whatever late spawn, witness,
      timer, abort or exit follows; and a commit that has not reported running
      by then never will. */
  lemma {:induction false} TerminalIsAbsorbing(s: State, steps: seq<Step>, i: nat)
    requires TableOk(s) && TerminalAt(s, i)
    ensures TerminalAt(Run(s, steps), i)
    ensures RunningReported(Run(s, steps), i) ==> RunningReported(s, i)
    decreases |steps|
  {
    if steps != [] {
      RecordAfter(s, steps[0], i);
      DoKeepsTable(s, steps[0]);
      ApplyAdvances(s.tracked[i], s.tracked[i].preparation.p, Here(s, i), Listed(s, i),
                    if steps[0].Act? then steps[0].a else ProcessDies);
      TerminalIsAbsorbing(Do(s, steps[0]), steps[1..], i);
    }
  }

  predicate CommitClaimed(s: State, i: nat) {
    i < |s.tracked| && s.tracked[i].preparation.Held? && !s.tracked[i].preparation.p.commit.NoCommit?
  }

  predicate ExpiryClaimed(s: State, i: nat) {
    i < |s.tracked| && s.tracked[i].preparation.Held? && s.tracked[i].preparation.p.expiryClaimed
  }

  /** Whichever of commit and expiry claims a preparation first, the other never
      claims it, in any continuation of the run. */
  lemma {:induction false} FirstClaimWins(s: State, steps: seq<Step>, i: nat)
    requires Inv(s) && TimelyRun(s, steps)
    ensures CommitClaimed(s, i) ==> CommitClaimed(Run(s, steps), i) && !ExpiryClaimed(Run(s, steps), i)
    ensures ExpiryClaimed(s, i) ==> ExpiryClaimed(Run(s, steps), i) && !CommitClaimed(Run(s, steps), i)
    decreases |steps|
  {
    if steps == [] {
      assert i < |s.tracked| ==> RecordOk(s.tracked[i]);
    } else {
      StepKeeps(s, steps[0]);
      if CommitClaimed(s, i) || ExpiryClaimed(s, i) {
        RecordAfter(s, steps[0], i);
        ApplyAdvances(s.tracked[i], s.tracked[i].preparation.p, Here(s, i), Listed(s, i),
                      if steps[0].Act? then steps[0].a else ProcessDies);
      }
      FirstClaimWins(Do(s, steps[0]), steps[1..], i);
    }
  }

  // ----- Receipts -----

  function SeqSet(xs: seq<string>): set<string> { set x | x in xs }

  lemma {:induction false} SeqSetSize(xs: seq<string>)
    ensures |SeqSet(xs)| <= |xs|
  {
    if xs != [] {
      SeqSetSize(xs[1..]);
      assert SeqSet(xs) == {xs[0]} + SeqSet(xs[1..]);
    } else {
      assert SeqSet(xs) == {};
    }
  }

  lemma SubsetSize<T>(a: set<T>, b: set<T>)
    requires a <= b
    ensures |a| <= |b|
  {
    assert b == a + (b - a);
  }

  /** The receipts that are not on file for eviction belong to the one live start. */
  lemma LiveReceiptIsUnique(s: State, k: string, l: string)
    requires Inv(s) && k in s.preparations && l in s.preparations && k !in s.order && l !in s.order
    ensures k == l
  {
    assert ReceiptOk(s, k) && ReceiptOk(s, l);
    var i, j := s.preparations[k], s.preparations[l];
    assert Attached(s.tracked[j]) by { assert RecordOk(s.tracked[j]); }
  }

  lemma CoveredByOrder(s: State) returns (kept: string)
    requires Inv(s)
    ensures s.preparations.Keys <= SeqSet(s.order) + {kept}
  {
    if live :| live in s.preparations && live !in s.order {
      kept := live;
      forall k | k in s.preparations && k !in s.order ensures k == kept {
        LiveReceiptIsUnique(s, k, kept);
      }
    } else {
      kept := "";
    }
  }

  lemma SizeOfCover(keys: set<string>, order: seq<string>, kept: string)
    requires keys <= SeqSet(order) + {kept}
    ensures |keys| <= |order| + 1
  {
    SubsetSize(keys, SeqSet(order) + {kept});
    SeqSetSize(order);
  }

  /** However many starts come and go, at most the newest 64 terminal receipts
      and the one live start stay on file. */
  lemma ReceiptsAreBounded(steps: seq<Step>)
    requires TimelyRun(InitialState, steps)
    ensures |Run(InitialState, steps).preparations| <= 65 && |Run(InitialState, steps).order| <= 64
  {
    RunKeeps(InitialState, steps);
    var s := Run(InitialState, steps);
    var kept := CoveredByOrder(s);
    SizeOfCover(s.preparations.Keys, s.order, kept);
  }

  // ----- Commits that overtake the prepare owner -----

  lemma {:induction false} RunAppend(s: State, steps: seq<Step>, last: Step)
    requires TableOk(s)
    ensures Run(s, steps + [last]) == Do(Run(s, steps), last)
    ensures TimelyRun(s, steps + [last]) <==> TimelyRun(s, steps) && Timely(Run(s, steps), last)
    decreases |steps|
  {
    if steps == [] {
      assert steps + [last] == [last];
      DoKeepsTable(s, last);
    } else {
      DoKeepsTable(s, steps[0]);
      assert (steps + [last])[0] == steps[0] && (steps + [last])[1..] == steps[1..] + [last];
      RunAppend(Do(s, steps[0]), steps[1..], last);
    }
  }

  lemma Extend(s: State, base: seq<Step>, i: nat, a: Action) returns (next: seq<Step>)
    requires TableOk(s) && i < |Run(s, base).tracked| && !a.Claim? && TimelyRun(s, base)
    ensures next == base + [Act(i, a)] && TimelyRun(s, next)
    ensures var before := Run(s, base); var after := Run(s, next);
      && after.processes == before.processes
      && after.tracked == before.tracked[i := Apply(before.tracked[i], Here(before, i), Listed(before, i), a)]
  {
    next := base + [Act(i, a)];
    RunAppend(s, base, Act(i, a));
    var before := Run(s, base);
    var t := before.tracked[i];
    if t.preparation.Held? {
      RememberFields(before.(tracked := before.tracked[i := Apply(t, Here(before, i), Listed(before, i), a)]),
                     t.preparation.p.identity.start);
    }
  }

  /** A running start whose owner has not closed prepareDone: where an early commit leads. */
  predicate RunsUnanswered(t: Tracked, cleanup: CleanupPc) {
    t.preparation.Held? && var p := t.preparation.p;
    && p.channels.prepared == 0 && p.abort.NoAbort? && p.cleanup == cleanup
    && p.channels.cleaned == Count(cleanup.CleanupClosed?)
  }

  /** Only record `i` has moved, and it still serves the same stream. */
  predicate OnlyMoved(c: State, r: State, i: nat) {
    && r.processes == c.processes && |r.tracked| == |c.tracked| && i < |c.tracked|
    && (forall j | 0 <= j < |c.tracked| && j != i :: r.tracked[j] == c.tracked[j])
    && r.tracked[i].stream == c.tracked[i].stream
  }

  /** After an early commit the start can run and die ... */
  lemma EarlyCommitDies(c: State, i: nat) returns (steps: seq<Step>)
    requires TableOk(c) && i < |c.tracked| && Here(c, i) && RunsUnanswered(c.tracked[i], NotRequested)
    requires var t := c.tracked[i];
      t.preparation.p.phase.Committing? && t.preparation.p.commit.Witnessing? && t.status.StatusStarting?
      && t.waiter.Waiting? && !t.process.NoProcess?
    ensures TimelyRun(c, steps)
    ensures var r := Run(c, steps);
      && OnlyMoved(c, r, i) && RunsUnanswered(r.tracked[i], NotRequested)
      && r.tracked[i].waiter.Waiting? && r.tracked[i].process.Dead? && r.tracked[i].preparation.p.phase.Running?
  {
    var resolve := Act(i, Claim(CommitResolve(true)));
    RunAppend(c, [], resolve);
    steps := [] + [resolve];
    assert Run(c, steps).tracked[i].status.StatusRunning?;
    steps := Extend(c, steps, i, ProcessDies);
  }

  /** ... its exit is noticed ... */
  lemma EarlyCommitExits(c: State, i: nat) returns (steps: seq<Step>)
    requires TableOk(c) && i < |c.tracked| && Here(c, i) && RunsUnanswered(c.tracked[i], NotRequested)
    requires var t := c.tracked[i];
      t.preparation.p.phase.Committing? && t.preparation.p.commit.Witnessing? && t.status.StatusStarting?
      && t.waiter.Waiting? && !t.process.NoProcess?
    ensures TimelyRun(c, steps)
    ensures var r := Run(c, steps);
      && OnlyMoved(c, r, i) && RunsUnanswered(r.tracked[i], Requested)
      && r.tracked[i].waiter.CleanupRequested? && r.tracked[i].reapedRunning && r.tracked[i].status.StatusStopped?
  {
    steps := EarlyCommitDies(c, i);
    steps := Extend(c, steps, i, WaitExit(true));
    assert Run(c, steps).tracked[i].waiter.Reaped? && RunsUnanswered(Run(c, steps).tracked[i], NotRequested);
    steps := Extend(c, steps, i, Wait(WaitCleanup));
  }

  /** ... and then finish its cleanup and release the slot. */
  lemma EarlyCommitReleases(c: State, base: seq<Step>, i: nat) returns (steps: seq<Step>)
    requires TableOk(c) && TimelyRun(c, base) && i < |Run(c, base).tracked|
    requires var t := Run(c, base).tracked[i];
      && RunsUnanswered(t, Requested) && t.waiter.CleanupRequested? && t.reapedRunning && t.status.StatusStopped?
    ensures TimelyRun(c, steps)
    ensures var r := Run(c, steps);
      OnlyMoved(Run(c, base), r, i) && RunsUnanswered(r.tracked[i], CleanupClosed) && !OwnsSlot(r.tracked[i])
  {
    steps := Extend(c, base, i, Cleanup(CleanupDetach));
    assert RunsUnanswered(Run(c, steps).tracked[i], Detached);
    steps := Extend(c, steps, i, Cleanup(CleanupRun));
    assert RunsUnanswered(Run(c, steps).tracked[i], ClosureDone);
    steps := Extend(c, steps, i, Cleanup(CleanupClose));
    assert RunsUnanswered(Run(c, steps).tracked[i], CleanupClosed);
    steps := Extend(c, steps, i, Wait(WaitRelease));
  }

  /** The commit region accepts a claim on record `i` right now. */
  predicate ClaimOpen(s: State, i: nat) {
    i < |s.tracked| && s.tracked[i].preparation.Held? && s.tracked[i].preparation.p.phase.Prepared? && Here(s, i)
  }

  const Claimed := Claim(CommitClaim(true))

  /** The released slot goes to a legacy start, and an abort that cannot give
      the short answer takes it back. */
  lemma RetakesSlot(c: State, base: seq<Step>, i: nat) returns (steps: seq<Step>)
    requires TableOk(c) && TimelyRun(c, base) && i < |Run(c, base).tracked| && Here(Run(c, base), i)
    requires RunsUnanswered(Run(c, base).tracked[i], CleanupClosed) && !AnyOwner(Run(c, base))
    ensures TimelyRun(c, steps) && !SlotExclusive(Run(c, steps))
  {
    var r := Run(c, base);
    var stream := r.tracked[i].stream;
    RunAppend(c, base, LegacyReserve(stream + "+"));
    steps := base + [LegacyReserve(stream + "+")];
    steps := Extend(c, steps, i, Abort(AbortEnter(ByRequest)));
    var end := Run(c, steps);
    assert OwnsSlot(end.tracked[end.processes[stream]]) && OwnsSlot(end.tracked[end.processes[stream + "+"]]);
  }

  lemma NobodyElseOwns(s: State, i: nat, r: State)
    requires Inv(s) && i < |s.tracked| && s.tracked[i].preparation.Held? && OwnsSlot(s.tracked[i])
    requires OnlyMoved(s, r, i) && !OwnsSlot(r.tracked[i])
    ensures TableOk(r) && !AnyOwner(r)
  {
    forall k | k in r.processes ensures !OwnsSlot(r.tracked[r.processes[k]]) {
      if r.processes[k] != i {
        assert !Attached(s.tracked[r.processes[k]]);
      }
    }
  }

  lemma EarlyCommitIsUnsafe(s: State, i: nat) returns (steps: seq<Step>)
    requires Inv(s) && ClaimOpen(s, i) && s.tracked[i].preparation.p.channels.prepared == 0
    ensures TableOk(Do(s, Act(i, Claimed))) && TimelyRun(Do(s, Act(i, Claimed)), steps)
    ensures !SlotExclusive(Run(Do(s, Act(i, Claimed)), steps))
  {
    DoKeepsTable(s, Act(i, Claimed));
    var c := Do(s, Act(i, Claimed));
    assert RecordOk(s.tracked[i]);
    steps := EarlyCommitExits(c, i);
    steps := EarlyCommitReleases(c, steps, i);
    NobodyElseOwns(s, i, Run(c, steps));
    steps := RetakesSlot(c, steps, i);
  }

  /** A commit keeps the slot exclusive over every later run exactly when the prepare
      owner had closed prepareDone, which it does before it answers its client. The code
      does not check this; it relies on the client to commit only what was answered. */
  lemma CommitTimingIsExact(s: State, i: nat)
    requires Inv(s) && ClaimOpen(s, i)
    ensures TableOk(Do(s, Act(i, Claimed)))
    ensures s.tracked[i].preparation.p.channels.prepared > 0
        <==> (forall steps | TimelyRun(Do(s, Act(i, Claimed)), steps) ::
                SlotExclusive(Run(Do(s, Act(i, Claimed)), steps)))
  {
    DoKeepsTable(s, Act(i, Claimed));
    var c := Do(s, Act(i, Claimed));
    if s.tracked[i].preparation.p.channels.prepared > 0 {
      StepKeeps(s, Act(i, Claimed));
      forall steps | TimelyRun(c, steps) ensures SlotExclusive(Run(c, steps)) {
        RunKeeps(c, steps);
        InvMeansExclusive(Run(c, steps));
      }
    } else {
      var steps := EarlyCommitIsUnsafe(s, i);
    }
  }
}
