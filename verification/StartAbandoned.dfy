/** Runs that the code does not guard against: a commit before the prepare owner has
    closed prepareDone, and an abort that gives up. */
module StartAbandoned {
  import opened Common
  import opened StartProtocol
  import opened StartSafety
  import opened StartTheorems

  // ----- Concrete runs -----

  lemma BeginRuns(id: Identity) returns (steps: seq<Step>)
    requires Complete(id)
    ensures TimelyRun(InitialState, steps)
    ensures var s := Run(InitialState, steps);
      s.tracked == [FreshTracked(id)] && s.processes == map[id.stream := 0]
  {
    var begin := Begin(id, Some(0));
    assert BeginAccepted(InitialState, id, Some(0));
    RunAppend(InitialState, [], begin);
    steps := [] + [begin];
  }

  /** The state in which a commit comes too early is one the code reaches: the process
      is installed and prepareDone not yet closed. */
  lemma EarlyClaimIsReachable(id: Identity) returns (steps: seq<Step>)
    requires Complete(id)
    ensures TimelyRun(InitialState, steps)
    ensures var s := Run(InitialState, steps);
      Inv(s) && ClaimOpen(s, 0) && s.tracked[0].preparation.p.channels.prepared == 0
  {
    steps := BeginRuns(id);
    steps := Extend(InitialState, steps, 0, Owner(AllocateBridges));
    steps := Extend(InitialState, steps, 0, Owner(SetCleanup));
    steps := Extend(InitialState, steps, 0, Owner(ReserveSlot));
    steps := Extend(InitialState, steps, 0, Owner(Spawn));
    steps := Extend(InitialState, steps, 0, Owner(Install(false)));
    RunKeeps(InitialState, steps);
  }

  /** From the start of the manager: an early commit and then two owners of the slot. */
  lemma TwoOwnersAreReachable(id: Identity) returns (before: seq<Step>, after: seq<Step>)
    requires Complete(id)
    ensures TimelyRun(InitialState, before)
    ensures ClaimOpen(Run(InitialState, before), 0)
    ensures var c := Do(Run(InitialState, before), Act(0, Claimed));
      TableOk(c) && TimelyRun(c, after) && !SlotExclusive(Run(c, after))
  {
    before := EarlyClaimIsReachable(id);
    after := EarlyCommitIsUnsafe(Run(InitialState, before), 0);
  }

  // ----- An abort that gave up -----

  /** The only abort there can be has timed out, and the start owns the slot. */
  predicate AbortGaveUp(s: State, i: nat) {
    && i < |s.tracked| && s.tracked[i].preparation.Held? && s.tracked[i].preparation.p.abort.AbortTimedOut?
    && OwnsSlot(s.tracked[i])
  }

  /** A process is there, or its owner is about to start one. */
  predicate HasProcess(t: Tracked) {
    t.preparation.Held? && (Installed(t) || t.preparation.p.owner.Reserved? || t.preparation.p.owner.Spawned?)
  }

  predicate Stuck(t: Tracked) {
    && t.preparation.Held? && !HasProcess(t) && OwnsSlot(t)
    && t.preparation.p.abort.AbortTimedOut? && t.preparation.p.phase.Terminal() && t.waiter.NoWaiter?
    && t.starter.NoStarter?
  }

  lemma StuckOwner(t: Tracked, p: Preparation, here: bool, a: OwnerAction)
    requires t.preparation == Held(p) && Stuck(t)
    ensures Stuck(ApplyOwner(t, p, here, a))
  {
  }

  lemma StuckAbort(t: Tracked, p: Preparation, here: bool, a: AbortAction)
    requires t.preparation == Held(p) && Stuck(t) && PreparedOk(t, p)
    ensures Stuck(ApplyAbort(t, p, here, a))
  {
  }

  lemma StuckStays(t: Tracked, p: Preparation, here: bool, listed: bool, a: Action)
    requires t.preparation == Held(p) && Stuck(t) && PreparedOk(t, p)
    ensures Stuck(Apply(t, here, listed, a))
  {
    match a
    case Owner(o) => StuckOwner(t, p, here, o);
    case Abort(b) => StuckAbort(t, p, here, b);
    case Claim(_) =>
    case Cleanup(_) =>
    case WaitExit(_) =>
    case Wait(_) =>
    case ProcessDies =>
    case StopRequest =>
  }

  /** Without a process nothing gives the slot back any more: the one abort is spent,
      and only a reaper could release it. */
  lemma {:induction false} StuckForEver(s: State, steps: seq<Step>, i: nat)
    requires Inv(s) && i < |s.tracked| && Stuck(s.tracked[i]) && TimelyRun(s, steps)
    ensures i < |Run(s, steps).tracked| && Stuck(Run(s, steps).tracked[i])
    decreases |steps|
  {
    if steps != [] {
      assert RecordOk(s.tracked[i]);
      RecordAfter(s, steps[0], i);
      if steps[0].Act? && steps[0].i == i {
        StuckStays(s.tracked[i], s.tracked[i].preparation.p, Here(s, i), Listed(s, i), steps[0].a);
      }
      StepKeeps(s, steps[0]);
      StuckForEver(Do(s, steps[0]), steps[1..], i);
    }
  }

  lemma GaveUpWithoutProcess(s: State, i: nat)
    requires Inv(s) && AbortGaveUp(s, i) && !HasProcess(s.tracked[i])
    ensures Stuck(s.tracked[i])
  {
    assert RecordOk(s.tracked[i]);
  }

  // ----- With a process the slot can still come free -----

  function OwnerRank(o: OwnerPc): nat {
    match o
    case Reserved => 3
    case Spawned => 2
    case Returned => 1
    case _ => 0
  }

  function WaitRank(w: WaitPc): nat {
    match w
    case NoWaiter => 4
    case Waiting => 3
    case Reaped => 2
    case CleanupRequested => 1
    case _ => 0
  }

  function CleanupRank(k: CleanupPc): nat {
    match k
    case NotRequested => 4
    case Requested => 3
    case Detached => 2
    case ClosureDone => 1
    case CleanupClosed => 0
  }

  function Rank(t: Tracked): nat
    requires t.preparation.Held?
  {
    OwnerRank(t.preparation.p.owner) + WaitRank(t.waiter) + CleanupRank(t.preparation.p.cleanup)
    + match t.process case NoProcess => 2 case Alive => 1 case Dead => 0
  }

  /** What the owner, the process, its reaper or the cleanup does next. */
  function NextAction(t: Tracked): Action
    requires t.preparation.Held?
  {
    var p := t.preparation.p;
    if p.owner.Reserved? then Owner(Spawn)
    else if p.owner.Spawned? then Owner(Install(false))
    else if p.owner.Returned? then Owner(Finish)
    else if t.process.Alive? then ProcessDies
    else if t.waiter.Waiting? then WaitExit(true)
    else if t.waiter.Reaped? then Wait(WaitCleanup)
    else if p.cleanup.Requested? then Cleanup(CleanupDetach)
    else if p.cleanup.Detached? then Cleanup(CleanupRun)
    else if p.cleanup.ClosureDone? then Cleanup(CleanupClose)
    else Wait(WaitRelease)
  }

  predicate Moves(t: Tracked, u: Tracked)
    requires t.preparation.Held?
  {
    HasProcess(u) && u.preparation.p.abort.AbortTimedOut? && Rank(u) < Rank(t)
  }

  lemma OwnerMoves(t: Tracked, p: Preparation, listed: bool)
    requires t.preparation == Held(p) && PreparedOk(t, p) && p.abort.AbortTimedOut? && HasProcess(t)
    requires p.owner.Reserved? || p.owner.Spawned? || p.owner.Returned?
    ensures Moves(t, Apply(t, true, listed, NextAction(t)))
  {
  }

  lemma ProcessMoves(t: Tracked, p: Preparation, listed: bool)
    requires t.preparation == Held(p) && PreparedOk(t, p) && p.abort.AbortTimedOut? && Installed(t) && p.owner.Finished?
    requires t.process.Alive? || t.waiter.Waiting? || t.waiter.Reaped?
    ensures Moves(t, Apply(t, true, listed, NextAction(t)))
  {
  }

  lemma NextActionMoves(t: Tracked, p: Preparation, listed: bool)
    requires t.preparation == Held(p) && PreparedOk(t, p) && p.abort.AbortTimedOut? && HasProcess(t) && OwnsSlot(t)
    ensures Moves(t, Apply(t, true, listed, NextAction(t)))
  {
    if p.owner.Reserved? || p.owner.Spawned? || p.owner.Returned? {
      OwnerMoves(t, p, listed);
    } else if t.process.Alive? || t.waiter.Waiting? || t.waiter.Reaped? {
      ProcessMoves(t, p, listed);
    }
  }

  lemma {:induction false} SlotCanComeFree(s: State, i: nat) returns (steps: seq<Step>)
    requires Inv(s) && AbortGaveUp(s, i) && HasProcess(s.tracked[i])
    ensures TimelyRun(s, steps) && i < |Run(s, steps).tracked| && !OwnsSlot(Run(s, steps).tracked[i])
    decreases Rank(s.tracked[i])
  {
    assert RecordOk(s.tracked[i]) && Here(s, i);
    var t := s.tracked[i];
    var step := Act(i, NextAction(t));
    NextActionMoves(t, t.preparation.p, Listed(s, i));
    RecordAfter(s, step, i);
    StepKeeps(s, step);
    var next := Do(s, step);
    if OwnsSlot(next.tracked[i]) {
      var rest := SlotCanComeFree(next, i);
      steps := [step] + rest;
      assert steps[1..] == rest;
    } else {
      steps := [step];
      assert steps[1..] == [];
    }
  }

  /** Once the abort has given up, the slot is lost for good exactly when there is no
      process and its owner will not start one any more. */
  lemma LostSlotExactly(s: State, i: nat)
    requires Inv(s) && AbortGaveUp(s, i)
    ensures (forall steps | TimelyRun(s, steps) :: i < |Run(s, steps).tracked| && OwnsSlot(Run(s, steps).tracked[i]))
       <==> !HasProcess(s.tracked[i])
  {
    if HasProcess(s.tracked[i]) {
      var steps := SlotCanComeFree(s, i);
    } else {
      GaveUpWithoutProcess(s, i);
      forall steps | TimelyRun(s, steps) ensures i < |Run(s, steps).tracked| && OwnsSlot(Run(s, steps).tracked[i]) {
        StuckForEver(s, steps, i);
      }
    }
  }

  /** Such a loss is reachable: an abort times out while the owner is still at work,
      and the owner then gives up and answers. */
  lemma LostSlotIsReachable(id: Identity) returns (steps: seq<Step>)
    requires Complete(id)
    ensures TimelyRun(InitialState, steps)
    ensures var s := Run(InitialState, steps);
      Inv(s) && AbortGaveUp(s, 0) && !HasProcess(s.tracked[0]) && s.tracked[0].preparation.p.owner.Finished?
  {
    steps := BeginRuns(id);
    steps := Extend(InitialState, steps, 0, Abort(AbortEnter(ByRequest)));
    steps := Extend(InitialState, steps, 0, Abort(AbortTimeout));
    steps := Extend(InitialState, steps, 0, Owner(GiveUp));
    steps := Extend(InitialState, steps, 0, Owner(Finish));
    RunKeeps(InitialState, steps);
  }
}
