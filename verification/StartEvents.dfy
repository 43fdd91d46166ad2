/** What must have happened before a record can be where it is: no phase and no answer
    of a prepared start comes about without the event it stands for. */
module StartEvents {
  import opened Common
  import opened StartProtocol
  import opened StartTheorems

  predicate Happened(steps: seq<Step>, i: nat, a: Action) {
    Act(i, a) in steps
  }

  /** A running answer needs a graph witness, a claim in time, and a start that was not
      cancelled. */
  predicate CommitEarned(p: Preparation, i: nat, steps: seq<Step>) {
    && (p.commit.Committed? ==> Happened(steps, i, Claim(CommitResolve(true))))
    && (!p.commit.NoCommit? ==> Happened(steps, i, Claim(CommitClaim(true))))
    && (p.phase.Prepared? || !p.commit.NoCommit? || p.expiryClaimed ==> Happened(steps, i, Owner(Install(false))))
    && (p.phase.Committing? ==> !p.commit.NoCommit?)
    && (p.phase.Running? ==> p.commit.Committed?)
  }

  /** Expired and aborted are the phases of the timer and of a request. */
  predicate AbortEarned(p: Preparation, i: nat, steps: seq<Step>) {
    && (p.expiryClaimed || p.phase.Expired? || p.abortCaller.ByExpiry? ==> Happened(steps, i, Claim(Expire(true))))
    && (p.phase.Aborted? || p.abortCaller.ByRequest? ==> Happened(steps, i, Abort(AbortEnter(ByRequest))))
  }

  /** A start fails by its process, its commit or its owner. */
  predicate FailureEarned(p: Preparation, i: nat, steps: seq<Step>) {
    && (p.abortCaller.ByCommit? ==> Happened(steps, i, Abort(AbortEnter(ByCommit))))
    && (p.abortCaller.ByOwner? && !p.abort.NoAbort? ==> Happened(steps, i, Abort(AbortEnter(ByOwner))))
    && (p.phase.Failed? ==>
          || Happened(steps, i, Abort(AbortEnter(ByCommit))) || Happened(steps, i, Abort(AbortEnter(ByOwner)))
          || Happened(steps, i, WaitExit(true)) || Happened(steps, i, WaitExit(false)))
  }

  predicate Earned(t: Tracked, i: nat, steps: seq<Step>) {
    t.preparation.Held? ==>
      var p := t.preparation.p;
      CommitEarned(p, i, steps) && AbortEarned(p, i, steps) && FailureEarned(p, i, steps)
  }

  lemma StillEarned(t: Tracked, i: nat, steps: seq<Step>, last: Step)
    requires Earned(t, i, steps)
    ensures Earned(t, i, steps + [last])
  {
    assert forall a :: Happened(steps, i, a) ==> Happened(steps + [last], i, a);
  }

  /** Nothing is claimed that was not claimed before. */
  predicate ClaimsNoMore(p: Preparation, q: Preparation) {
    && q.commit == p.commit && q.expiryClaimed == p.expiryClaimed && q.phase == p.phase
    && q.abortCaller == p.abortCaller && (q.abort.NoAbort? <==> p.abort.NoAbort?)
  }

  lemma SameClaimsEarned(t: Tracked, u: Tracked, i: nat, steps: seq<Step>)
    requires t.preparation.Held? && u.preparation.Held? && Earned(t, i, steps)
    requires ClaimsNoMore(t.preparation.p, u.preparation.p)
    ensures Earned(u, i, steps)
  {
  }

  lemma InstallEarns(t: Tracked, p: Preparation, here: bool, i: nat, contextDone: bool, steps: seq<Step>)
    requires t.preparation == Held(p) && Earned(t, i, steps) && Happened(steps, i, Owner(Install(contextDone)))
    ensures Earned(ApplyOwner(t, p, here, Install(contextDone)), i, steps)
  {
    if !contextDone && p.owner.Spawned? && p.phase.Preparing? {
      assert Happened(steps, i, Owner(Install(false)));
    } else {
      SameClaimsEarned(t, ApplyOwner(t, p, here, Install(contextDone)), i, steps);
    }
  }

  lemma OwnerEarns(t: Tracked, p: Preparation, here: bool, i: nat, o: OwnerAction, steps: seq<Step>)
    requires t.preparation == Held(p) && Earned(t, i, steps) && Happened(steps, i, Owner(o))
    ensures Earned(ApplyOwner(t, p, here, o), i, steps)
  {
    if o.Install? {
      InstallEarns(t, p, here, i, o.contextDone, steps);
    } else {
      SameClaimsEarned(t, ApplyOwner(t, p, here, o), i, steps);
    }
  }

  lemma ClaimEarns(t: Tracked, p: Preparation, here: bool, listed: bool, i: nat, c: ClaimAction, steps: seq<Step>)
    requires t.preparation == Held(p) && Earned(t, i, steps) && Happened(steps, i, Claim(c))
    ensures Earned(ApplyClaim(t, p, here, listed, c), i, steps)
  {
  }

  lemma EnterEarns(t: Tracked, p: Preparation, i: nat, caller: AbortCaller, steps: seq<Step>)
    requires t.preparation == Held(p) && Earned(t, i, steps) && MayCall(p, caller)
    requires Happened(steps, i, Abort(AbortEnter(caller)))
    ensures Earned(ApplyEnter(t, p, caller), i, steps)
  {
  }

  lemma ReleaseEarns(t: Tracked, p: Preparation, here: bool, i: nat, steps: seq<Step>)
    requires t.preparation == Held(p) && Earned(t, i, steps)
    ensures Earned(ApplyAbort(t, p, here, AbortRelease), i, steps)
  {
  }

  lemma AbortEarns(t: Tracked, p: Preparation, here: bool, i: nat, b: AbortAction, steps: seq<Step>)
    requires t.preparation == Held(p) && Earned(t, i, steps) && Happened(steps, i, Abort(b))
    ensures Earned(ApplyAbort(t, p, here, b), i, steps)
  {
    match b
    case AbortEnter(caller) =>
      if here && MayCall(p, caller) {
        EnterEarns(t, p, i, caller, steps);
      }
    case AbortRelease => ReleaseEarns(t, p, here, i, steps);
    case _ => SameClaimsEarned(t, ApplyAbort(t, p, here, b), i, steps);
  }

  lemma ExitEarns(t: Tracked, here: bool, i: nat, clean: bool, steps: seq<Step>)
    requires Earned(t, i, steps) && Happened(steps, i, WaitExit(clean))
    ensures Earned(ApplyExit(t, here, clean), i, steps)
  {
  }

  lemma ActionEarns(t: Tracked, here: bool, listed: bool, i: nat, a: Action, steps: seq<Step>)
    requires Earned(t, i, steps) && Happened(steps, i, a)
    ensures Earned(Apply(t, here, listed, a), i, steps)
  {
    match a
    case Owner(o) => if t.preparation.Held? { OwnerEarns(t, t.preparation.p, here, i, o, steps); }
    case Claim(c) => if t.preparation.Held? { ClaimEarns(t, t.preparation.p, here, listed, i, c, steps); }
    case Abort(b) => if t.preparation.Held? { AbortEarns(t, t.preparation.p, here, i, b, steps); }
    case WaitExit(clean) => ExitEarns(t, here, i, clean, steps);
    case _ => if t.preparation.Held? { SameClaimsEarned(t, Apply(t, here, listed, a), i, steps); }
  }

  lemma RecordEarns(s: State, step: Step, i: nat, steps: seq<Step>)
    requires TableOk(s) && i < |s.tracked| && Earned(s.tracked[i], i, steps)
    ensures i < |Do(s, step).tracked| && Earned(Do(s, step).tracked[i], i, steps + [step])
  {
    var t := s.tracked[i];
    StillEarned(t, i, steps, step);
    if t.preparation.Held? {
      RecordAfter(s, step, i);
      if step.Act? && step.i == i {
        ActionEarns(t, Here(s, i), Listed(s, i), i, step.a, steps + [step]);
      }
    } else {
      LegacyStays(s, step, i);
    }
  }

  lemma LegacyStays(s: State, step: Step, i: nat)
    requires TableOk(s) && i < |s.tracked| && s.tracked[i].preparation.Legacy?
    ensures i < |Do(s, step).tracked| && Do(s, step).tracked[i].preparation.Legacy?
  {
    DoKeepsTable(s, step);
    if step.Act? && step.i < |s.tracked| && s.tracked[step.i].preparation.Held? {
      var t := s.tracked[step.i];
      RememberFields(s.(tracked := s.tracked[step.i := Apply(t, Here(s, step.i), Listed(s, step.i), step.a)]),
                     t.preparation.p.identity.start);
    }
  }

  ghost predicate AllEarned(s: State, steps: seq<Step>) {
    forall i | 0 <= i < |s.tracked| :: Earned(s.tracked[i], i, steps)
  }

  /** A record that a step adds is a fresh one. */
  lemma NewRecordIsFresh(s: State, step: Step, i: nat)
    requires TableOk(s) && |s.tracked| <= i < |Do(s, step).tracked|
    ensures forall steps :: Earned(Do(s, step).tracked[i], i, steps)
  {
    if step.Act? && step.i < |s.tracked| && s.tracked[step.i].preparation.Held? {
      var t := s.tracked[step.i];
      RememberFields(s.(tracked := s.tracked[step.i := Apply(t, Here(s, step.i), Listed(s, step.i), step.a)]),
                     t.preparation.p.identity.start);
    }
  }

  lemma StepEarns(s: State, step: Step, steps: seq<Step>)
    requires TableOk(s) && AllEarned(s, steps)
    ensures AllEarned(Do(s, step), steps + [step])
  {
    forall i | 0 <= i < |Do(s, step).tracked| ensures Earned(Do(s, step).tracked[i], i, steps + [step]) {
      if i < |s.tracked| {
        RecordEarns(s, step, i, steps);
      } else {
        NewRecordIsFresh(s, step, i);
      }
    }
  }

  lemma {:induction false} RunEarns(s: State, before: seq<Step>, steps: seq<Step>)
    requires TableOk(s) && AllEarned(s, before)
    ensures AllEarned(Run(s, steps), before + steps)
    decreases |steps|
  {
    if steps == [] {
      assert before + steps == before;
    } else {
      DoKeepsTable(s, steps[0]);
      StepEarns(s, steps[0], before);
      RunEarns(Do(s, steps[0]), before + [steps[0]], steps[1..]);
      assert before + [steps[0]] + steps[1..] == before + steps;
    }
  }

  /** Over every run, timely or not: running is reported only after a witnessed commit
      of a claim in time, of a start that was not cancelled. */
  lemma RunningIsEarned(steps: seq<Step>, i: nat)
    requires RunningReported(Run(InitialState, steps), i)
    ensures Act(i, Claim(CommitResolve(true))) in steps && Act(i, Claim(CommitClaim(true))) in steps
    ensures Act(i, Owner(Install(false))) in steps
  {
    RunEarns(InitialState, [], steps);
    assert [] + steps == steps;
    assert Earned(Run(InitialState, steps).tracked[i], i, steps);
  }

  /** Each resting phase is that of its cause: the timer, a request, or a failure. */
  lemma TerminalPhaseIsEarned(steps: seq<Step>, i: nat)
    requires TerminalAt(Run(InitialState, steps), i)
    ensures var phase := Run(InitialState, steps).tracked[i].preparation.p.phase;
            && (phase.Expired? ==> Act(i, Claim(Expire(true))) in steps)
            && (phase.Aborted? ==> Act(i, Abort(AbortEnter(ByRequest))) in steps)
            && (phase.Failed? ==>
                  || Act(i, Abort(AbortEnter(ByCommit))) in steps || Act(i, Abort(AbortEnter(ByOwner))) in steps
                  || Act(i, WaitExit(true)) in steps || Act(i, WaitExit(false)) in steps)
  {
    RunEarns(InitialState, [], steps);
    assert [] + steps == steps;
    assert Earned(Run(InitialState, steps).tracked[i], i, steps);
  }

  /** The region that gives the slot back leaves the phase of whoever aborted. */
  lemma AbortEndsInCallersPhase(t: Tracked, here: bool, listed: bool)
    requires t.preparation.Held? && here
    requires t.preparation.p.abort.AwaitCleanup? && t.preparation.p.channels.cleaned > 0
    ensures var u := Apply(t, here, listed, Abort(AbortRelease));
            && u.preparation.Held? && u.status.StatusFailed? && !u.cleaning
            && (t.preparation.p.abortCaller.ByRequest? ==> u.preparation.p.phase.Aborted?)
            && (t.preparation.p.abortCaller.ByExpiry? ==> u.preparation.p.phase.Expired?)
            && (t.preparation.p.abortCaller.ByCommit? || t.preparation.p.abortCaller.ByOwner? ==>
                  u.preparation.p.phase.Failed?)
  {
  }
}
