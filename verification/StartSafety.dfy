/** What every interleaving of the start protocol keeps. */
module StartSafety {
  import opened Common
  import opened StartProtocol

  // ----- The invariant of one record -----

  predicate Installed(t: Tracked) { !t.process.NoProcess? }

  predicate ExitSeen(t: Tracked) { t.waiter.Reaped? || t.waiter.CleanupRequested? || t.waiter.Released? }

  function Count(b: bool): nat { if b then 1 else 0 }

  /** Everything a release must have waited for. */
  predicate Drained(t: Tracked, p: Preparation) {
    && p.phase.Terminal()
    && p.channels.prepared == 1 && p.channels.cleaned == 1
    && (Installed(t) ==> p.channels.exited == 1 && t.process.Dead?)
    && !t.feed
    && p.bridges.runs == Count(p.bridges.present)
  }

  predicate ChannelsOk(t: Tracked, p: Preparation) {
    && p.channels.prepared == Count(p.owner.Finished?)
    && p.channels.cleaned == Count(p.cleanup.CleanupClosed?)
    && p.channels.exited == Count(ExitSeen(t))
    && (t.process.NoProcess? <==> t.waiter.NoWaiter?)
    && !t.waiter.Lost?
    && (ExitSeen(t) ==> t.process.Dead?)
    && (Installed(t) ==> p.owner.Returned? || p.owner.Finished?)
    && t.feedCloses == Count(Installed(t) && !t.feed)
    && (t.feed ==> Installed(t))
  }

  predicate Phases(t: Tracked, p: Preparation) {
    && (p.phase.Preparing? ==>
          p.commit.NoCommit? && p.abort.NoAbort? && !p.expiryClaimed && t.status.StatusStarting? && !t.cleaning)
    && (p.phase.Prepared? || p.phase.Committing? || p.phase.Running? ==>
          t.waiter.Waiting? && p.abort.NoAbort? && !p.expiryClaimed && !t.cleaning)
    && (p.phase.Prepared? || p.phase.Committing? ==> t.status.StatusStarting?)
    && (p.phase.Prepared? ==> p.commit.NoCommit?)
    && (p.phase.Committing? ==> p.commit.Witnessing? || p.commit.CommitFailed?)
    && (p.phase.Running? ==> p.commit.Committed? && (t.status.StatusRunning? || t.status.StatusStopping?))
    && (p.expiryClaimed ==> p.commit.NoCommit?)
    && (!p.commit.NoCommit? ==> p.channels.prepared == 1)
    && (ExitSeen(t) ==> p.phase.Terminal() && (t.status.StatusFailed? || t.status.StatusStopped?))
    && (t.reapedRunning ==> p.commit.Committed?)
    && !t.status.StatusPackaging?
    && t.starter.NoStarter?
  }

  predicate Aborts(t: Tracked, p: Preparation) {
    && (p.abort.AwaitExit? ==> Installed(t) && p.channels.prepared == 1)
    && (p.abort.AwaitPrepare? || p.abort.AwaitExit? || p.abort.RequestCleanup? ==> p.phase.Terminal())
    && (p.abort.RequestCleanup? || p.abort.AwaitCleanup? || p.abort.AbortDone? ==>
          p.channels.prepared == 1 && (Installed(t) ==> ExitSeen(t)))
    && (p.abort.AwaitCleanup? || p.abort.AbortDone? ==> !p.cleanup.NotRequested?)
    && (p.abort.AbortDone? ==> p.cleanup.CleanupClosed?)
  }

  predicate Cleanups(t: Tracked, p: Preparation) {
    && (!p.cleanup.NotRequested? ==>
          && p.phase.Terminal() && (p.owner.Returned? || p.owner.Finished?) && (Installed(t) ==> ExitSeen(t))
          && (Installed(t) || p.owner.Finished?))
    && (t.waiter.Released? ==> p.cleanup.CleanupClosed? && p.channels.prepared == 1 && !t.cleaning)
    && (t.waiter.CleanupRequested? ==> !p.cleanup.NotRequested?)
    && (p.owner.Began? ==> !p.bridges.present)
    && (p.bridges.present <==> p.owner.Bridged? || p.bridges.held || p.bridges.refused)
    && !(p.bridges.held && p.bridges.refused)
    && (p.owner.Began? || p.owner.Bridged? ==> !p.bridges.held && !p.bridges.refused)
    && (p.owner.HandedOver? || p.owner.Reserved? || p.owner.Spawned? ==> p.bridges.held)
    && (p.cleanup.Detached? || p.cleanup.ClosureDone? || p.cleanup.CleanupClosed? ==>
          p.bridges.captured == p.bridges.held && !t.feed)
    && p.bridges.runs
       == Count(p.bridges.refused) + Count(p.bridges.held && (p.cleanup.ClosureDone? || p.cleanup.CleanupClosed?))
  }

  predicate PreparedOk(t: Tracked, p: Preparation) {
    && ChannelsOk(t, p) && Phases(t, p) && Aborts(t, p) && Cleanups(t, p)
    && (!OwnsSlot(t) ==> Drained(t, p))
  }

  predicate LegacyOk(t: Tracked) {
    && (!t.starter.NoStarter? ==>
          && t.status.StatusStarting? && !t.cleaning && t.process.NoProcess? && t.waiter.NoWaiter?
          && !t.feed && t.feedCloses == 0)
    && (t.starter.NoStarter? ==>
          && Installed(t)
          && (t.waiter.Waiting? || t.waiter.Reaped? || t.waiter.Released?)
          && (t.waiter.Waiting? ==> (t.status.StatusRunning? || t.status.StatusStopping?) && !t.cleaning)
          && (t.waiter.Reaped? ==> t.cleaning)
          && (t.waiter.Released? ==> !t.cleaning)
          && (ExitSeen(t) ==> t.process.Dead? && (t.status.StatusFailed? || t.status.StatusStopped?))
          && t.feedCloses == Count(!t.feed) && t.feed == t.waiter.Waiting?)
  }

  predicate RecordOk(t: Tracked) {
    match t.preparation
    case Held(p) => PreparedOk(t, p) && p.identity.stream == t.stream
    case Legacy => LegacyOk(t)
  }

  /** The records that must still be the ones the process table names. */
  predicate Attached(t: Tracked) {
    OwnsSlot(t) && !t.starter.Over?
  }

  // ----- The invariant of the manager -----

  predicate RecordsOk(s: State) {
    forall i :: 0 <= i < |s.tracked| ==> RecordOk(s.tracked[i])
  }

  predicate Linked(s: State) {
    && TableOk(s)
    && (forall i :: 0 <= i < |s.tracked| && Attached(s.tracked[i]) ==> Here(s, i))
    && (forall k ::
          k in s.processes ==> s.tracked[s.processes[k]].stream == k && !s.tracked[s.processes[k]].starter.Over?)
  }

  /** A prepared start that owns the slot leaves no other record attached. */
  predicate Exclusive(s: State) {
    forall i, j | 0 <= i < |s.tracked| && 0 <= j < |s.tracked| && i != j
      :: s.tracked[i].preparation.Held? && OwnsSlot(s.tracked[i]) ==> !Attached(s.tracked[j])
  }

  predicate Receipts(s: State) {
    && |s.order| <= MaxReceipts
    && (forall k :: k in s.preparations ==> ReceiptOk(s, k))
  }

  /** A receipt names its own start, which is on file for eviction or still live. */
  predicate ReceiptOk(s: State, k: string)
    requires k in s.preparations
  {
    && s.preparations[k] < |s.tracked|
    && s.tracked[s.preparations[k]].preparation.Held?
    && s.tracked[s.preparations[k]].preparation.p.identity.start == k
    && (k in s.order || OwnsSlot(s.tracked[s.preparations[k]]))
  }

  predicate Inv(s: State) {
    && RecordsOk(s) && Linked(s) && Exclusive(s) && Receipts(s)
  }

  /** The client commits only what the prepare owner has answered, which it does after
      closing `prepareDone`. */
  predicate Timely(s: State, step: Step) {
    (step.Act? && step.a.Claim? && step.a.c.CommitClaim? && step.i < |s.tracked| && s.tracked[step.i].preparation.Held?
     && s.tracked[step.i].preparation.p.phase.Prepared?)
    ==> s.tracked[step.i].preparation.p.channels.prepared > 0
  }

  // ----- One action keeps its record in order -----

  /** `u` is a sound successor of `t`: nobody gains the slot by acting. */
  predicate Follows(t: Tracked, u: Tracked) {
    && u.preparation.Held? && PreparedOk(u, u.preparation.p)
    && (OwnsSlot(u) ==> OwnsSlot(t))
  }

  lemma InstallKeeps(t: Tracked, p: Preparation, here: bool, contextDone: bool)
    requires t.preparation == Held(p) && PreparedOk(t, p)
    ensures Follows(t, ApplyOwner(t, p, here, Install(contextDone)))
  {
  }

  lemma SetCleanupKeeps(t: Tracked, p: Preparation, here: bool)
    requires t.preparation == Held(p) && PreparedOk(t, p)
    ensures Follows(t, ApplyOwner(t, p, here, SetCleanup))
  {
  }

  lemma OwnerMovesKeeps(t: Tracked, p: Preparation, here: bool, a: OwnerAction)
    requires t.preparation == Held(p) && PreparedOk(t, p) && (a.GiveUp? || a.ReserveSlot? || a.Spawn?)
    ensures Follows(t, ApplyOwner(t, p, here, a))
  {
  }

  lemma OwnerKeeps(t: Tracked, p: Preparation, here: bool, a: OwnerAction)
    requires t.preparation == Held(p) && PreparedOk(t, p)
    ensures Follows(t, ApplyOwner(t, p, here, a))
  {
    match a
    case Install(contextDone) => InstallKeeps(t, p, here, contextDone);
    case SetCleanup => SetCleanupKeeps(t, p, here);
    case AllocateBridges =>
    case Finish =>
    case _ => OwnerMovesKeeps(t, p, here, a);
  }

  lemma ClaimKeeps(t: Tracked, p: Preparation, here: bool, listed: bool, a: ClaimAction)
    requires t.preparation == Held(p) && PreparedOk(t, p)
    requires a.CommitClaim? && p.phase.Prepared? ==> p.channels.prepared > 0
    ensures Follows(t, ApplyClaim(t, p, here, listed, a))
  {
  }

  /** Once the slot is released everything is drained, so a late abort answers
      at once and never takes the slot back. */
  lemma LateEnterKeeps(t: Tracked, p: Preparation, caller: AbortCaller)
    requires t.preparation == Held(p) && PreparedOk(t, p)
    requires p.channels.cleaned > 0 && p.channels.prepared > 0 && !t.cleaning
    ensures Follows(t, ApplyEnter(t, p, caller))
  {
  }

  lemma FirstEnterKeeps(t: Tracked, p: Preparation, caller: AbortCaller)
    requires t.preparation == Held(p) && PreparedOk(t, p) && p.abort.NoAbort?
    requires !(p.channels.cleaned > 0 && p.channels.prepared > 0 && !t.cleaning)
    ensures Follows(t, ApplyEnter(t, p, caller))
  {
  }

  lemma EnterKeeps(t: Tracked, p: Preparation, caller: AbortCaller)
    requires t.preparation == Held(p) && PreparedOk(t, p)
    ensures Follows(t, ApplyEnter(t, p, caller))
  {
    if p.channels.cleaned > 0 && p.channels.prepared > 0 && !t.cleaning {
      LateEnterKeeps(t, p, caller);
    } else if p.abort.NoAbort? {
      FirstEnterKeeps(t, p, caller);
    } else {
      assert ApplyEnter(t, p, caller) == t;
    }
  }

  lemma AbortReleaseKeeps(t: Tracked, p: Preparation, here: bool)
    requires t.preparation == Held(p) && PreparedOk(t, p)
    ensures Follows(t, ApplyAbort(t, p, here, AbortRelease))
  {
  }

  /** Asking for the cleanup a second time changes nothing. */
  lemma OnceKeeps(t: Tracked, p: Preparation)
    requires t.preparation == Held(p) && PreparedOk(t, p) && p.phase.Terminal()
    requires (p.owner.Returned? || p.owner.Finished?) && (Installed(t) ==> ExitSeen(t))
    requires (Installed(t) || p.owner.Finished?)
    ensures PreparedOk(t.(preparation := Held(CleanupOnce(p))), CleanupOnce(p))
  {
    if p.cleanup.NotRequested? {
    }
  }

  lemma AbortCleanupKeeps(t: Tracked, p: Preparation, here: bool)
    requires t.preparation == Held(p) && PreparedOk(t, p)
    ensures Follows(t, ApplyAbort(t, p, here, AbortCleanup))
  {
    if p.abort.RequestCleanup? {
      OnceKeeps(t, p);
    }
  }

  lemma AbortWaitKeeps(t: Tracked, p: Preparation, here: bool, a: AbortAction)
    requires t.preparation == Held(p) && PreparedOk(t, p) && (a.AbortPrepared? || a.AbortExited? || a.AbortTimeout?)
    ensures Follows(t, ApplyAbort(t, p, here, a))
  {
  }

  lemma AbortKeeps(t: Tracked, p: Preparation, here: bool, a: AbortAction)
    requires t.preparation == Held(p) && PreparedOk(t, p)
    ensures Follows(t, ApplyAbort(t, p, here, a))
  {
    match a
    case AbortEnter(caller) => EnterKeeps(t, p, caller);
    case AbortCleanup => AbortCleanupKeeps(t, p, here);
    case AbortRelease => AbortReleaseKeeps(t, p, here);
    case _ => AbortWaitKeeps(t, p, here, a);
  }

  lemma DetachKeeps(t: Tracked, p: Preparation)
    requires t.preparation == Held(p) && PreparedOk(t, p)
    ensures Follows(t, ApplyCleanup(t, p, CleanupDetach))
  {
  }

  lemma ClosureKeeps(t: Tracked, p: Preparation, a: CleanupAction)
    requires t.preparation == Held(p) && PreparedOk(t, p) && !a.CleanupDetach?
    ensures Follows(t, ApplyCleanup(t, p, a))
  {
  }

  lemma WaitCleanupKeeps(t: Tracked, p: Preparation)
    requires t.preparation == Held(p) && PreparedOk(t, p)
    ensures Follows(t, ApplyWait(t, WaitCleanup))
  {
    if t.waiter.Reaped? {
      OnceKeeps(t, p);
    }
  }

  lemma WaitReleaseKeeps(t: Tracked, p: Preparation)
    requires t.preparation == Held(p) && PreparedOk(t, p)
    ensures Follows(t, ApplyWait(t, WaitRelease))
  {
  }

  lemma ExitKeeps(t: Tracked, p: Preparation, clean: bool)
    requires t.preparation == Held(p) && PreparedOk(t, p) && t.waiter.Waiting? && t.process.Dead?
    ensures Follows(t, ApplyExit(t, true, clean))
  {
  }

  lemma LegacyKeeps(t: Tracked, here: bool, listed: bool, a: Action)
    requires t.preparation.Legacy? && LegacyOk(t) && (Attached(t) ==> here)
    ensures var u := Apply(t, here, listed, a); LegacyOk(u) && (OwnsSlot(u) ==> OwnsSlot(t))
  {
  }

  lemma PreparedKeeps(t: Tracked, p: Preparation, here: bool, listed: bool, a: Action)
    requires t.preparation == Held(p) && PreparedOk(t, p) && (OwnsSlot(t) ==> here)
    requires a.Claim? && a.c.CommitClaim? && p.phase.Prepared? ==> p.channels.prepared > 0
    ensures Follows(t, Apply(t, here, listed, a))
  {
    match a
    case Owner(o) => OwnerKeeps(t, p, here, o);
    case Claim(c) => ClaimKeeps(t, p, here, listed, c);
    case Abort(b) => AbortKeeps(t, p, here, b);
    case Cleanup(k) => if k.CleanupDetach? { DetachKeeps(t, p); } else { ClosureKeeps(t, p, k); }
    case Wait(w) => if w.WaitCleanup? { WaitCleanupKeeps(t, p); } else { WaitReleaseKeeps(t, p); }
    case WaitExit(clean) => if t.waiter.Waiting? && t.process.Dead? { ExitKeeps(t, p, clean); }
    case ProcessDies =>
    case StopRequest =>
  }

  lemma ApplyKeeps(t: Tracked, here: bool, listed: bool, a: Action)
    requires RecordOk(t) && (Attached(t) ==> here)
    requires a.Claim? && a.c.CommitClaim? && t.preparation.Held? && t.preparation.p.phase.Prepared?
             ==> t.preparation.p.channels.prepared > 0
    ensures var u := Apply(t, here, listed, a); RecordOk(u) && (OwnsSlot(u) ==> OwnsSlot(t))
  {
    match t.preparation
    case Legacy => LegacyKeeps(t, here, listed, a);
    case Held(p) => PreparedKeeps(t, p, here, listed, a);
  }

  /** The slot is released only by the two regions that also file the receipt. */
  lemma ReleaseIsFiled(t: Tracked, here: bool, listed: bool, a: Action)
    requires RecordOk(t) && t.preparation.Held? && OwnsSlot(t) && !OwnsSlot(Apply(t, here, listed, a))
    ensures FilesReceipt(t, here, a)
  {
  }

  // ----- One step keeps the manager in order -----

  lemma {:induction false} TrimKeeps(s: State)
    requires TableOk(s)
    requires forall k :: k in s.preparations ==> ReceiptOk(s, k)
    ensures forall k :: k in Trim(s).preparations ==> ReceiptOk(Trim(s), k)
    ensures Trim(s).tracked == s.tracked && Trim(s).processes == s.processes && |Trim(s).order| <= MaxReceipts
    decreases |s.order|
  {
    if |s.order| > MaxReceipts {
      var cut := s.(order := s.order[1..], preparations := s.preparations - {s.order[0]});
      forall k | k in cut.preparations ensures ReceiptOk(cut, k) {
        assert ReceiptOk(s, k) && s.order == [s.order[0]] + cut.order;
      }
      TrimKeeps(cut);
    }
  }

  lemma MoveKeepsTable(s: State, i: nat, u: Tracked)
    requires Linked(s) && Exclusive(s) && i < |s.tracked|
    requires SameRecord(s.tracked[i], u) && (OwnsSlot(u) ==> OwnsSlot(s.tracked[i]))
    ensures var moved := s.(tracked := s.tracked[i := u]); Linked(moved) && Exclusive(moved)
  {
  }

  lemma MoveKeepsReceipts(s: State, i: nat, u: Tracked)
    requires Linked(s) && Receipts(s) && i < |s.tracked|
    requires SameRecord(s.tracked[i], u)
    requires s.tracked[i].preparation.Held? && OwnsSlot(s.tracked[i]) && !OwnsSlot(u)
             ==> s.tracked[i].preparation.p.identity.start in s.order
    ensures Receipts(s.(tracked := s.tracked[i := u]))
  {
    var moved := s.(tracked := s.tracked[i := u]);
    forall k | k in moved.preparations ensures ReceiptOk(moved, k) {
      assert ReceiptOk(s, k);
    }
  }

  lemma FilingKeeps(s: State, start: string)
    requires Linked(s) && Exclusive(s) && Receipts(s)
    ensures var full := Remember(s, start);
      Linked(full) && Exclusive(full) && Receipts(full) && full.tracked == s.tracked
  {
    if start !in s.order {
      var full := s.(order := s.order + [start]);
      forall k | k in full.preparations ensures ReceiptOk(full, k) {
        assert ReceiptOk(s, k);
      }
      TrimKeeps(full);
    }
  }

  /** Filing first and moving the record afterwards ends in the same state. */
  lemma FilingCommutes(s: State, i: nat, u: Tracked, start: string)
    requires i < |s.tracked|
    ensures Remember(s.(tracked := s.tracked[i := u]), start)
            == Remember(s, start).(tracked := s.tracked[i := u])
  {
    if start !in s.order {
      TrimCommutes(s.(order := s.order + [start]), s.tracked[i := u]);
    }
  }

  lemma {:induction false} TrimCommutes(s: State, tracked: seq<Tracked>)
    ensures Trim(s.(tracked := tracked)) == Trim(s).(tracked := tracked)
    decreases |s.order|
  {
    if |s.order| > MaxReceipts {
      var cut := s.(order := s.order[1..], preparations := s.preparations - {s.order[0]});
      TrimCommutes(cut, tracked);
      assert s.(tracked := tracked).(order := s.order[1..], preparations := s.preparations - {s.order[0]})
          == cut.(tracked := tracked);
    }
  }

  lemma {:induction false} TrimFiles(s: State, start: string)
    requires |s.order| > 0 && s.order[|s.order| - 1] == start
    ensures start in Trim(s).order
    decreases |s.order|
  {
    if |s.order| > MaxReceipts {
      TrimFiles(s.(order := s.order[1..], preparations := s.preparations - {s.order[0]}), start);
    }
  }

  lemma ActKeeps(s: State, i: nat, a: Action)
    requires Inv(s) && Timely(s, Act(i, a))
    ensures Inv(Do(s, Act(i, a)))
  {
    if i < |s.tracked| {
      var t := s.tracked[i];
      var u := Apply(t, Here(s, i), Listed(s, i), a);
      ApplyKeeps(t, Here(s, i), Listed(s, i), a);
      ActKeepsManager(s, i, a, u);
      RememberFields(s.(tracked := s.tracked[i := u]),
                     if t.preparation.Held? then t.preparation.p.identity.start else "");
    }
  }

  lemma ActKeepsManager(s: State, i: nat, a: Action, u: Tracked)
    requires i < |s.tracked| && RecordOk(s.tracked[i]) && Linked(s) && Exclusive(s) && Receipts(s)
    requires u == Apply(s.tracked[i], Here(s, i), Listed(s, i), a) && (OwnsSlot(u) ==> OwnsSlot(s.tracked[i]))
    ensures var next := Do(s, Act(i, a)); Linked(next) && Exclusive(next) && Receipts(next)
  {
    var t := s.tracked[i];
    MoveKeepsTable(s, i, u);
    if FilesReceipt(t, Here(s, i), a) {
      var start := t.preparation.p.identity.start;
      FilingKeeps(s, start);
      FilingCommutes(s, i, u, start);
      if start !in s.order {
        TrimFiles(s.(order := s.order + [start]), start);
      }
      RememberFields(s, start);
      MoveKeepsTable(Remember(s, start), i, u);
      MoveKeepsReceipts(Remember(s, start), i, u);
    } else {
      if t.preparation.Held? && OwnsSlot(t) && !OwnsSlot(u) {
        ReleaseIsFiled(t, Here(s, i), Listed(s, i), a);
      }
      MoveKeepsReceipts(s, i, u);
    }
  }

  function AddOwner(s: State, t: Tracked): State {
    s.(tracked := s.tracked + [t], processes := s.processes[t.stream := |s.tracked|])
  }

  /** A new record may take a stream's place in the table when nobody attached
      is displaced and no prepared start shares the slot. */
  lemma AddOwnerKeeps(s: State, t: Tracked)
    requires TableOk(s) && RecordsOk(s) && RecordOk(t) && !t.starter.Over?
    requires forall i | 0 <= i < |s.tracked| && Attached(s.tracked[i])
               :: Here(s, i) && s.tracked[i].stream != t.stream
                  && s.tracked[i].preparation.Legacy? && t.preparation.Legacy?
    requires forall k :: k in s.processes && k != t.stream
               ==> s.tracked[s.processes[k]].stream == k && !s.tracked[s.processes[k]].starter.Over?
    ensures var next := AddOwner(s, t); RecordsOk(next) && Linked(next) && Exclusive(next)
  {
  }

  lemma BeginKeeps(s: State, id: Identity, durable: Option<nat>)
    requires Inv(s) && BeginAccepted(s, id, durable)
    ensures Inv(Do(s, Begin(id, durable)))
  {
    forall i | 0 <= i < |s.tracked| ensures !Attached(s.tracked[i]) {
      assert Attached(s.tracked[i]) ==> Here(s, i);
    }
    AddOwnerKeeps(s, FreshTracked(id));
    var next := Do(s, Begin(id, durable));
    forall k | k in next.preparations ensures ReceiptOk(next, k) {
      if k != id.start {
        assert ReceiptOk(s, k);
      }
    }
  }

  lemma LegacyReserveKeeps(s: State, stream: string)
    requires Inv(s) && !LegacyBlocked(s, stream)
    ensures Inv(Do(s, LegacyReserve(stream)))
  {
    forall i | 0 <= i < |s.tracked| && Attached(s.tracked[i])
      ensures Here(s, i) && s.tracked[i].stream != stream && s.tracked[i].preparation.Legacy?
    {
      assert Here(s, i);
    }
    AddOwnerKeeps(s, LegacyReservation(stream));
    var next := Do(s, LegacyReserve(stream));
    forall k | k in next.preparations ensures ReceiptOk(next, k) {
      assert ReceiptOk(s, k);
    }
  }

  /** A reservation is attached, so no prepared start owns the slot beside it. */
  lemma ReservationAlone(s: State, i: nat)
    requires Inv(s) && i < |s.tracked| && s.tracked[i].starter.Reserving?
    ensures Here(s, i) && s.tracked[i].preparation.Legacy?
    ensures forall j | 0 <= j < |s.tracked| && j != i && Attached(s.tracked[j])
              :: s.tracked[j].preparation.Legacy? && s.tracked[j].stream != s.tracked[i].stream
  {
    assert RecordOk(s.tracked[i]) && Attached(s.tracked[i]) && Here(s, i);
    forall j | 0 <= j < |s.tracked| && j != i && Attached(s.tracked[j])
      ensures s.tracked[j].preparation.Legacy? && s.tracked[j].stream != s.tracked[i].stream
    {
      assert Here(s, j);
    }
  }

  lemma LegacyAbandonKeeps(s: State, i: nat)
    requires Inv(s) && i < |s.tracked| && s.tracked[i].starter.Reserving?
    ensures Inv(Do(s, LegacyAbandon(i)))
  {
    ReservationAlone(s, i);
    assert RecordOk(s.tracked[i]);
    var next := Do(s, LegacyAbandon(i));
    forall k | k in next.preparations ensures ReceiptOk(next, k) {
      assert ReceiptOk(s, k);
    }
  }

  lemma LegacyInstallKeeps(s: State, i: nat)
    requires Inv(s) && i < |s.tracked| && s.tracked[i].starter.Reserving?
    ensures Inv(Do(s, LegacyInstall(i)))
  {
    ReservationAlone(s, i);
    assert RecordOk(s.tracked[i]);
    var left := s.(tracked := s.tracked[i := s.tracked[i].(starter := Over)]);
    AddOwnerKeeps(left, LegacyRunning(s.tracked[i].stream));
    var next := Do(s, LegacyInstall(i));
    assert next == AddOwner(left, LegacyRunning(s.tracked[i].stream));
    forall k | k in next.preparations ensures ReceiptOk(next, k) {
      assert ReceiptOk(s, k);
    }
  }

  lemma StepKeeps(s: State, step: Step)
    requires Inv(s) && Timely(s, step)
    ensures Inv(Do(s, step))
  {
    match step
    case Begin(id, durable) => if BeginAccepted(s, id, durable) { BeginKeeps(s, id, durable); }
    case LegacyReserve(stream) => if !LegacyBlocked(s, stream) { LegacyReserveKeeps(s, stream); }
    case LegacyAbandon(i) => if i < |s.tracked| && s.tracked[i].starter.Reserving? { LegacyAbandonKeeps(s, i); }
    case LegacyInstall(i) => if i < |s.tracked| && s.tracked[i].starter.Reserving? { LegacyInstallKeeps(s, i); }
    case Act(i, a) => ActKeeps(s, i, a);
  }

  // ----- Whole runs -----

  /** Every commit of the run claims its preparation after `prepareDone` was closed. */
  predicate TimelyRun(s: State, steps: seq<Step>)
    requires TableOk(s)
    decreases |steps|
  {
    steps == [] || (Timely(s, steps[0]) && (DoKeepsTable(s, steps[0]); TimelyRun(Do(s, steps[0]), steps[1..])))
  }

  lemma {:induction false} RunKeeps(s: State, steps: seq<Step>)
    requires Inv(s) && TimelyRun(s, steps)
    ensures Inv(Run(s, steps))
    decreases |steps|
  {
    if steps != [] {
      StepKeeps(s, steps[0]);
      RunKeeps(Do(s, steps[0]), steps[1..]);
    }
  }
}
