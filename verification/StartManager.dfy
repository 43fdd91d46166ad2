/** The manager's mutex-held regions, in the order in which each one assigns.
    Every region is proved to be the protocol step of the same name. */
module StartManager {
  import opened Common
  import opened StartProtocol
  import opened StartSafety
  import StartTheorems

  class TrackedProcess {
    const stream: string
    ghost const id: nat
    var status: Status
    var cleaning: bool
    var process: Process
    var waiter: WaitPc
    var reapedRunning: bool
    var starter: StarterPc
    var feed: bool
    var feedCloses: nat
    var preparation: Holder

    constructor (stream: string, ghost id: nat, status: Status, starter: StarterPc, preparation: Holder)
      ensures this.id == id
      ensures View() == Tracked(stream, status, false, NoProcess, NoWaiter, false, starter, false, 0, preparation)
    {
      this.stream, this.id, this.status, this.starter, this.preparation := stream, id, status, starter, preparation;
      cleaning, process, waiter, reapedRunning, feed, feedCloses := false, NoProcess, NoWaiter, false, false, 0;
    }

    ghost function View(): Tracked
      reads this
    {
      Tracked(stream, status, cleaning, process, waiter, reapedRunning, starter, feed, feedCloses, preparation)
    }

    method DetachFeed()
      modifies this
      ensures View() == StartProtocol.DetachFeed(old(View()))
    {
      if feed {
        feed := false;
        feedCloses := feedCloses + 1;
      }
    }

    /** What the reaper writes once it has found its own record again. */
    method MarkExited(clean: bool)
      modifies this
      ensures View() == ApplyExit(old(View()), true, clean)
      ensures cleaning && waiter.Reaped?
      ensures old(preparation.Legacy? || preparation.p.phase.Running?) ==>
                && status == (if clean || old(status.StatusStopping?) then StatusStopped else StatusFailed)
                && !feed && (preparation.Held? ==> preparation.p.phase.Failed?)
      ensures old(preparation.Held? && !preparation.p.phase.Running?) ==>
                && status.StatusFailed? && preparation.Held?
                && preparation.p.phase == (if old(preparation.p.phase.Aborted? || preparation.p.phase.Expired?)
                                           then old(preparation.p.phase) else Failed)
    {
      cleaning := true;
      waiter := Reaped;
      if preparation.Held? {
        var p := preparation.p;
        p := p.(channels := p.channels.(exited := p.channels.exited + 1));
        if !p.phase.Running? {
          if !p.phase.Aborted? && !p.phase.Expired? {
            p := p.(phase := Failed);
          }
          preparation := Held(p);
          status := StatusFailed;
          return;
        }
        preparation := Held(p.(phase := Failed));
      }
      reapedRunning := true;
      status := if clean || status.StatusStopping? then StatusStopped else StatusFailed;
      DetachFeed();
    }

    /** What a start writes when its process is up, cancelled or not. */
    method Install(contextDone: bool) returns (cancelled: bool)
      requires preparation.Held? && preparation.p.owner.Spawned?
      modifies this
      ensures preparation.Held?
      ensures View() == ApplyOwner(old(View()), old(preparation.p), true, OwnerAction.Install(contextDone))
      ensures cancelled == (old(!preparation.p.phase.Preparing?) || contextDone)
      ensures process.Alive? && waiter.Waiting? && feed && status.StatusStarting?
      ensures preparation.p.phase == if cancelled then old(preparation.p.phase) else Prepared
    {
      var p := preparation.p;
      cancelled := !p.phase.Preparing? || contextDone;
      status := StatusStarting;
      process := Alive;
      feed := true;
      if !cancelled {
        p := p.(phase := Prepared);
      }
      preparation := Held(p.(owner := Returned));
      waiter := Waiting;
    }

    /** What a witnessed commit writes. */
    method Publish()
      requires preparation.Held?
      modifies this
      ensures status.StatusRunning? && preparation.Held? && preparation.p.phase.Running?
      ensures View() == old(View().(status := StatusRunning,
                                    preparation := Held(preparation.p.(phase := Running, commit := Committed))))
    {
      status := StatusRunning;
      preparation := Held(preparation.p.(phase := Running, commit := Committed));
    }

    /** What expiry writes. */
    method MarkExpired()
      requires preparation.Held?
      modifies this
      ensures cleaning && preparation.Held? && preparation.p.phase.Expired?
      ensures View() == old(View().(cleaning := true,
                                    preparation := Held(preparation.p.(phase := Expired, expiryClaimed := true))))
    {
      preparation := Held(preparation.p.(phase := Expired, expiryClaimed := true));
      cleaning := true;
    }

    /** What a legacy start writes when its process is up. */
    method MarkRunning()
      modifies this
      ensures status.StatusRunning? && process.Alive? && preparation == old(preparation)
      ensures View() == old(View()).(status := StatusRunning, process := Alive, waiter := Waiting, feed := true)
    {
      status, process, waiter, feed := StatusRunning, Alive, Waiting, true;
    }

    /** What the first region of an abort decides and writes. */
    method EnterAbort(caller: AbortCaller) returns (answer: AbortAnswer)
      requires preparation.Held?
      modifies this
      ensures preparation.Held? && preparation.p.identity == old(preparation.p.identity)
      ensures View() == ApplyEnter(old(View()), old(preparation.p), caller)
      ensures answer.AlreadyDrained? <==>
                old(preparation.p.channels.cleaned > 0 && preparation.p.channels.prepared > 0 && !cleaning)
      ensures answer.Started? <==> !answer.AlreadyDrained? && old(preparation.p.abort.NoAbort?)
      ensures answer.Started? ==> cleaning && preparation.p.abort.AwaitPrepare? && preparation.p.abortCaller == caller
      ensures !answer.AbortRefused? ==> InPhaseOf(caller, preparation.p.phase)
      ensures answer.AbortRefused? ==> View() == old(View())
    {
      var p := preparation.p;
      if p.channels.cleaned > 0 && p.channels.prepared > 0 && !cleaning {
        preparation := Held(p.(phase := CallerPhase(caller)));
        return AlreadyDrained;
      }
      if !p.abort.NoAbort? {
        return AbortRefused;
      }
      cleaning := true;
      preparation := Held(p.(phase := CallerPhase(caller), abort := AwaitPrepare, abortCaller := caller));
      answer := Started;
    }

    /** What the abort writes when it gives the slot back. */
    method MarkAborted()
      requires preparation.Held?
      modifies this
      ensures preparation.Held? && preparation.p.identity == old(preparation.p.identity)
      ensures status.StatusFailed? && !cleaning && InPhaseOf(old(preparation.p.abortCaller), preparation.p.phase)
      ensures View() == old(View().(status := StatusFailed, cleaning := false,
                preparation := Held(preparation.p.(phase := CallerPhase(preparation.p.abortCaller),
                                                   abort := AbortDone))))
    {
      status := StatusFailed;
      cleaning := false;
      preparation := Held(preparation.p.(phase := CallerPhase(preparation.p.abortCaller), abort := AbortDone));
    }
  }

  /** A request aborts, the timer expires, and a commit or an owner fails a start. */
  predicate InPhaseOf(caller: AbortCaller, phase: Phase) {
    && (caller.ByRequest? ==> phase.Aborted?)
    && (caller.ByExpiry? ==> phase.Expired?)
    && (caller.ByCommit? || caller.ByOwner? ==> phase.Failed?)
  }

  datatype BeginAnswer = Owned(t: TrackedProcess) | AlreadyRunning | Conflict | ReadFailed

  datatype StartAnswer = Reserved(t: TrackedProcess) | SlotTaken

  datatype CommitAnswer = Claimed | AlreadyCommitted | CommitRefused

  datatype StopAnswer = Stopping | StillStarting | AlreadyStopped | NotRunning

  datatype AbortAnswer = AlreadyDrained | Started | AbortRefused

  /** Table entry `k` owns the slot and stands in the way of a start. */
  predicate Blocks(s: State, k: string, stream: string, anyone: bool)
    requires TableOk(s) && k in s.processes
  {
    OwnsSlot(s.tracked[s.processes[k]]) && (anyone || k == stream || s.tracked[s.processes[k]].preparation.Held?)
  }

  class Manager {
    var processes: map<string, TrackedProcess>
    var preparations: map<string, TrackedProcess>
    var preparationOrder: seq<string>
    ghost var arena: seq<TrackedProcess>

    ghost predicate Valid()
      reads this, arena
    {
      && (forall i :: 0 <= i < |arena| ==> arena[i].id == i)
      && (forall k :: k in processes ==> Known(processes[k]) && processes[k].stream == k)
      && (forall k :: k in preparations ==> Known(preparations[k]))
    }

    ghost predicate Known(t: TrackedProcess)
      reads this
    {
      t.id < |arena| && arena[t.id] == t
    }

    ghost function Records(): (r: seq<Tracked>)
      reads this, arena
      ensures |r| == |arena|
    {
      seq(|arena|, i requires 0 <= i < |arena| reads this, arena => arena[i].View())
    }

    ghost function View(): State
      reads this, arena
      requires Valid()
      ensures TableOk(View())
    {
      State(Records(), map k | k in processes :: processes[k].id,
            map k | k in preparations :: preparations[k].id, preparationOrder)
    }

    /** Failed or stopped, and cleaned up. */
    predicate AtRest(t: TrackedProcess)
      reads t
    {
      !t.cleaning && (t.status.StatusFailed? || t.status.StatusStopped?)
    }

    predicate Current(t: TrackedProcess)
      reads this
    {
      t.stream in processes && processes[t.stream] == t
    }

    constructor ()
      ensures Valid() && View() == InitialState && arena == []
    {
      processes, preparations, preparationOrder, arena := map[], map[], [], [];
    }

    /** Every region is a protocol step, so whoever calls them in time keeps the
        invariant, and with it the exclusive slot. */
    twostate lemma StaysInOrder(step: Step)
      requires old(Valid()) && old(Inv(View())) && old(Timely(View(), step))
      requires Valid() && View() == Do(old(View()), step)
      ensures Inv(View()) && StartTheorems.SlotExclusive(View())
    {
      StepKeeps(old(View()), step);
      StartTheorems.InvMeansExclusive(View());
    }

    /** A region that writes one record and no table. */
    twostate lemma OneRecordMoved(t: TrackedProcess)
      requires old(Valid()) && old(Known(t)) && unchanged(this)
      requires forall o | o in old(arena) && o != t :: unchanged(o)
      ensures Valid() && View() == old(View()).(tracked := old(View()).tracked[t.id := t.View()])
    {
      forall i | 0 <= i < |arena| && i != t.id ensures Records()[i] == old(Records())[i] {
        assert arena[i] in old(arena) && arena[i] != t;
        assert unchanged(arena[i]);
      }
      assert Records() == old(Records())[t.id := t.View()];
    }

    method SetPreparationCleanup(t: TrackedProcess) returns (accepted: bool)
      requires Valid() && Known(t) && t.preparation.Held? && t.preparation.p.owner.Bridged?
      modifies t
      ensures Valid() && View() == Do(old(View()), Act(t.id, Owner(SetCleanup)))
      ensures accepted == (Current(t) && old(t.preparation.p.phase.Preparing?))
    {
      var p := t.preparation.p;
      if !Current(t) || !p.phase.Preparing? {
        accepted := false;
        t.preparation := Held(p.(owner := Returned,
                                 bridges := p.bridges.(refused := true, runs := p.bridges.runs + 1)));
      } else {
        accepted := true;
        t.preparation := Held(p.(owner := HandedOver, bridges := p.bridges.(held := true)));
      }
      OneRecordMoved(t);
    }

    /** The handler's own reservation check before it spawns the process. */
    method ReserveSlot(t: TrackedProcess) returns (accepted: bool)
      requires Valid() && Known(t) && t.preparation.Held? && t.preparation.p.owner.HandedOver?
      modifies t
      ensures Valid() && View() == Do(old(View()), Act(t.id, Owner(OwnerAction.ReserveSlot)))
      ensures accepted == (Current(t) && old(t.preparation.p.phase.Preparing?))
    {
      accepted := Current(t) && t.preparation.p.phase.Preparing?;
      t.preparation := Held(t.preparation.p.(owner := if accepted then OwnerPc.Reserved else Returned));
      OneRecordMoved(t);
    }

    /** An abort may have claimed the owner while the process was starting; the
        process is installed all the same, so that it can be reaped. */
    method InstallProcess(t: TrackedProcess, contextDone: bool) returns (cancelled: bool)
      requires Valid() && Known(t) && t.preparation.Held? && t.preparation.p.owner.Spawned?
      modifies t
      ensures Valid() && View() == Do(old(View()), Act(t.id, Owner(Install(contextDone))))
      ensures cancelled == (old(!t.preparation.p.phase.Preparing?) || contextDone)
      ensures t.process.Alive? && t.waiter.Waiting? && t.status.StatusStarting?
      ensures t.preparation.Held?
      ensures t.preparation.p.phase == if cancelled then old(t.preparation.p.phase) else Prepared
    {
      cancelled := t.Install(contextDone);
      OneRecordMoved(t);
    }

    method FinishStartPreparation(t: TrackedProcess)
      requires Valid() && Known(t) && t.preparation.Held? && t.preparation.p.owner.Returned?
      modifies t
      ensures Valid() && View() == Do(old(View()), Act(t.id, Owner(Finish)))
    {
      var p := t.preparation.p;
      t.preparation := Held(p.(owner := Finished, channels := p.channels.(prepared := p.channels.prepared + 1)));
      OneRecordMoved(t);
    }

    method CommitClaim(t: TrackedProcess, beforeExpiry: bool) returns (answer: CommitAnswer)
      requires Valid() && Known(t) && t.preparation.Held?
      modifies t
      ensures Valid()
      ensures answer == AlreadyCommitted
           <==> old(t.preparation.p.phase.Running? && Current(t) && t.status.StatusRunning?)
      ensures answer == Claimed <==> old(t.preparation.p.phase.Prepared? && Current(t)) && beforeExpiry
      ensures View() == Do(old(View()), Act(t.id, Claim(ClaimAction.CommitClaim(beforeExpiry))))
    {
      var p := t.preparation.p;
      if p.phase.Running? && Current(t) && t.status.StatusRunning? {
        answer := AlreadyCommitted;
      } else if !p.phase.Prepared? || !Current(t) || !beforeExpiry {
        answer := CommitRefused;
      } else {
        t.preparation := Held(p.(phase := Committing, commit := Witnessing));
        answer := Claimed;
      }
      OneRecordMoved(t);
    }

    method CommitResolve(t: TrackedProcess, witnessed: bool) returns (running: bool)
      requires Valid() && Known(t) && t.preparation.Held? && t.preparation.p.commit.Witnessing?
      modifies t
      ensures Valid() && View() == Do(old(View()), Act(t.id, Claim(ClaimAction.CommitResolve(witnessed))))
      ensures running
           <==> witnessed && old(Current(t) && t.preparation.p.phase.Committing? && t.status.StatusStarting?)
      ensures running ==> t.preparation.Held? && t.preparation.p.phase.Running? && t.status.StatusRunning? && Current(t)
      ensures !running ==>
                && t.preparation.Held? && t.preparation.p.commit.CommitFailed?
                && t.preparation.p.phase == old(t.preparation.p.phase) && t.status == old(t.status)
    {
      var p := t.preparation.p;
      running := witnessed;
      if running && (!Current(t) || !p.phase.Committing? || !t.status.StatusStarting?) {
        running := false;
      }
      if running {
        t.Publish();
      } else {
        t.preparation := Held(p.(commit := CommitFailed));
      }
      OneRecordMoved(t);
    }

    /** Claims the expiry under the same lock as a commit would claim. */
    method ExpirePreparation(t: TrackedProcess, due: bool) returns (claimed: bool)
      requires Valid() && Known(t) && t.preparation.Held?
      modifies t
      ensures Valid() && View() == Do(old(View()), Act(t.id, Claim(Expire(due))))
      ensures claimed
           <==> due && old(t.preparation.p.phase.Prepared? && Current(t)
                           && t.preparation.p.identity.start in preparations
                           && preparations[t.preparation.p.identity.start] == t)
      ensures claimed ==> t.cleaning && t.preparation.Held? && t.preparation.p.phase.Expired?
      ensures !claimed ==> View() == old(View())
    {
      var p := t.preparation.p;
      claimed := false;
      if p.identity.start in preparations && preparations[p.identity.start] == t && Current(t)
         && p.phase.Prepared? && due {
        t.MarkExpired();
        claimed := true;
      }
      OneRecordMoved(t);
    }

    method AbortEnter(t: TrackedProcess, caller: AbortCaller) returns (answer: AbortAnswer)
      requires Valid() && Known(t) && t.preparation.Held? && MayCall(t.preparation.p, caller)
      modifies t
      ensures Valid() && View() == Do(old(View()), Act(t.id, Abort(AbortAction.AbortEnter(caller))))
      ensures answer.AlreadyDrained?
           <==> old(Current(t) && t.preparation.p.channels.cleaned > 0 && t.preparation.p.channels.prepared > 0
                    && !t.cleaning)
      ensures answer.Started? <==> !answer.AlreadyDrained? && old(Current(t) && t.preparation.p.abort.NoAbort?)
      ensures answer.Started? ==> t.cleaning
      ensures !answer.AbortRefused? ==> t.preparation.Held? && InPhaseOf(caller, t.preparation.p.phase)
      ensures answer.AbortRefused? ==> View() == old(View())
    {
      if Current(t) {
        answer := t.EnterAbort(caller);
      } else {
        answer := AbortRefused;
      }
      OneRecordMoved(t);
    }

    /** The last region of an abort, once its cleanup has been seen to finish. */
    method AbortRelease(t: TrackedProcess)
      requires Valid() && Known(t) && t.preparation.Held?
      requires t.preparation.p.abort.AwaitCleanup? && t.preparation.p.channels.cleaned > 0
      modifies t, this`preparations, this`preparationOrder
      ensures Valid() && View() == Do(old(View()), Act(t.id, Abort(AbortAction.AbortRelease)))
      ensures t.preparation.Held? && t.preparation.p.abort.AbortDone?
      ensures Current(t) ==>
                && t.status.StatusFailed? && !t.cleaning
                && InPhaseOf(old(t.preparation.p.abortCaller), t.preparation.p.phase)
      ensures !Current(t) ==> t.status == old(t.status) && t.cleaning == old(t.cleaning)
    {
      var p := t.preparation.p;
      if Current(t) {
        t.MarkAborted();
        OneRecordMoved(t);
        RememberTerminal(p.identity.start);
      } else {
        t.preparation := Held(p.(abort := AbortDone));
        OneRecordMoved(t);
      }
    }

    /** Keeps each start id once and drops the oldest receipts beyond the limit. */
    method RememberTerminal(start: string)
      requires Valid()
      modifies this`preparations, this`preparationOrder
      ensures Valid() && View() == Remember(old(View()), start)
      ensures start in old(preparationOrder) ==> preparationOrder == old(preparationOrder)
      ensures start !in old(preparationOrder) ==>
                var all := old(preparationOrder) + [start];
                preparationOrder == if |all| <= 64 then all else all[|all| - 64..]
    {
      if start in preparationOrder {
        return;
      }
      preparationOrder := preparationOrder + [start];
      ghost var filed := View();
      assert filed == old(View()).(order := old(View()).order + [start]);
      while |preparationOrder| > MaxReceipts
        invariant Valid() && arena == old(arena) && processes == old(processes)
        invariant Trim(View()) == Trim(filed)
        invariant |preparationOrder| <= |filed.order|
        invariant preparationOrder == filed.order[|filed.order| - |preparationOrder|..]
        invariant |preparationOrder| >= 64 || |preparationOrder| == |filed.order|
      {
        DropOldest();
      }
    }

    method DropOldest()
      requires Valid() && |preparationOrder| > 0
      modifies this`preparations, this`preparationOrder
      ensures Valid()
      ensures View() == var s := old(View()); s.(order := s.order[1..], preparations := s.preparations - {s.order[0]})
    {
      var oldest := preparationOrder[0];
      preparationOrder := preparationOrder[1..];
      preparations := preparations - {oldest};
    }

    method CleanupDetach(t: TrackedProcess)
      requires Valid() && Known(t) && t.preparation.Held? && t.preparation.p.cleanup.Requested?
      modifies t
      ensures Valid() && View() == Do(old(View()), Act(t.id, Cleanup(CleanupAction.CleanupDetach)))
    {
      t.DetachFeed();
      var p := t.preparation.p;
      t.preparation := Held(p.(cleanup := Detached, bridges := p.bridges.(captured := p.bridges.held)));
      OneRecordMoved(t);
    }

    /** The reaper's first region after the process has exited. */
    method WaitExit(t: TrackedProcess, clean: bool)
      requires Valid() && Known(t) && t.waiter.Waiting? && t.process.Dead?
      modifies t
      ensures Valid() && View() == Do(old(View()), Act(t.id, Action.WaitExit(clean)))
      ensures Current(t) ==> t.cleaning && t.waiter.Reaped?
      ensures Current(t) && old(t.preparation.Legacy? || t.preparation.p.phase.Running?) ==>
                t.status == if clean || old(t.status.StatusStopping?) then StatusStopped else StatusFailed
      ensures Current(t) && old(t.preparation.Held? && !t.preparation.p.phase.Running?) ==> t.status.StatusFailed?
      ensures !Current(t) ==> t.waiter.Lost? && t.status == old(t.status)
    {
      if Current(t) {
        t.MarkExited(clean);
      } else {
        t.waiter := Lost;
      }
      OneRecordMoved(t);
    }

    /** The reaper's last region. */
    method WaitRelease(t: TrackedProcess)
      requires Valid() && Known(t)
      requires t.preparation.Legacy? ==> t.waiter.Reaped?
      requires t.preparation.Held? ==>
                 t.waiter.CleanupRequested? && t.preparation.p.channels.cleaned > 0
                 && (t.reapedRunning || t.preparation.p.channels.prepared > 0)
      modifies t, this`preparations, this`preparationOrder
      ensures Valid() && View() == Do(old(View()), Act(t.id, Wait(WaitAction.WaitRelease)))
    {
      t.cleaning := false;
      t.waiter := Released;
      OneRecordMoved(t);
      if t.preparation.Held? {
        RememberTerminal(t.preparation.p.identity.start);
      }
    }

    method Stop(stream: string) returns (answer: StopAnswer)
      requires Valid()
      modifies if stream in processes then {processes[stream]} else {}
      ensures Valid()
      ensures stream in processes ==> View() == Do(old(View()), Act(processes[stream].id, StopRequest))
      ensures stream !in processes ==> View() == old(View())
      ensures answer.Stopping? <==> stream in processes && old(processes[stream].status.StatusRunning?)
      ensures answer.Stopping? ==> processes[stream].status.StatusStopping?
      ensures answer.StillStarting? <==> stream in processes && old(processes[stream].status.StatusStarting?)
      ensures answer.NotRunning? <==> stream !in processes
    {
      if stream !in processes {
        return NotRunning;
      }
      var t := processes[stream];
      if t.status.StatusRunning? {
        t.status := StatusStopping;
        answer := Stopping;
      } else {
        answer := if t.status.StatusStarting? then StillStarting else AlreadyStopped;
      }
      OneRecordMoved(t);
    }

    // ----- Regions that create records -----

    /** A region that adds one record and touches no other. */
    twostate lemma OneRecordAdded(new t: TrackedProcess)
      requires old(Valid()) && arena == old(arena) + [t]
      requires forall o | o in old(arena) :: unchanged(o)
      ensures Records() == old(Records()) + [t.View()]
    {
      forall i | 0 <= i < |old(arena)| ensures Records()[i] == old(Records())[i] {
        assert old(arena)[i] in old(arena) && unchanged(old(arena)[i]);
      }
    }

    /** Creates a record in the `starting` state and makes it its stream's own. */
    method AddRecord(stream: string, starter: StarterPc, preparation: Holder) returns (t: TrackedProcess)
      requires Valid()
      modifies this`processes, this`arena
      ensures Valid() && fresh(t) && t.id == |old(arena)| && Known(t) && Current(t) && t.stream == stream
      ensures t.preparation == preparation
      ensures View() == var s := old(View());
        s.(tracked := s.tracked + [Tracked(stream, StatusStarting, false, NoProcess, NoWaiter, false, starter, false,
                                           0, preparation)],
           processes := s.processes[stream := |s.tracked|])
    {
      t := new TrackedProcess(stream, |arena|, StatusStarting, starter, preparation);
      processes := processes[stream := t];
      arena := arena + [t];
      OneRecordAdded(t);
      forall k | k in preparations ensures Known(preparations[k]) {
        assert old(Known(preparations[k]));
      }
    }

    method FindOwner(stream: string, anyone: bool) returns (found: bool)
      requires Valid()
      ensures anyone ==> found == AnyOwner(View())
      ensures !anyone ==> found == LegacyBlocked(View(), stream)
      ensures found <==> exists k | k in processes ::
                !AtRest(processes[k]) && (anyone || k == stream || processes[k].preparation.Held?)
    {
      var rest := processes.Keys;
      found := false;
      while rest != {}
        invariant rest <= processes.Keys
        invariant forall k | k in processes && k !in rest :: !Blocks(View(), k, stream, anyone)
        invariant forall k | k in processes && k !in rest ::
                    AtRest(processes[k]) || !(anyone || k == stream || processes[k].preparation.Held?)
        invariant !found
      {
        var k :| k in rest;
        var t := processes[k];
        assert View().tracked[View().processes[k]] == t.View();
        if (t.cleaning || t.status.StatusStarting? || t.status.StatusRunning?
            || t.status.StatusStopping? || t.status.StatusPackaging?)
           && (anyone || k == stream || t.preparation.Held?) {
          assert Blocks(View(), k, stream, anyone);
          return true;
        }
        rest := rest - {k};
      }
    }

    method IsDrained() returns (drained: bool)
      requires Valid()
      ensures drained <==> !AnyOwner(View())
      ensures drained
           <==> forall k | k in processes ::
                  !processes[k].cleaning && (processes[k].status.StatusFailed? || processes[k].status.StatusStopped?)
    {
      var owned := FindOwner("", true);
      drained := !owned;
    }

    method RegisterPreparation(id: Identity) returns (t: TrackedProcess)
      requires Valid()
      modifies this`processes, this`preparations, this`arena
      ensures Valid() && fresh(t) && Known(t) && Current(t)
      ensures View() == var s := old(View());
        s.(tracked := s.tracked + [FreshTracked(id)],
           processes := s.processes[id.stream := |s.tracked|],
           preparations := s.preparations[id.start := |s.tracked|])
    {
      t := AddRecord(id.stream, NoStarter, Held(FreshPreparation(id)));
      FileReceipt(id.start, t);
    }

    method FileReceipt(start: string, t: TrackedProcess)
      requires Valid() && Known(t)
      modifies this`preparations
      ensures Valid() && View() == old(View()).(preparations := old(View()).preparations[start := t.id])
    {
      preparations := preparations[start := t];
    }

    /** `durable` is the job generation on record, or nothing when reading it failed. */
    method BeginStartPreparation(id: Identity, durable: Option<nat>) returns (answer: BeginAnswer)
      requires Valid()
      modifies this
      ensures Valid() && View() == Do(old(View()), Begin(id, durable))
      ensures answer.Owned? <==> BeginAccepted(old(View()), id, durable)
      ensures answer.Owned? ==> fresh(answer.t) && Known(answer.t) && Current(answer.t)
      ensures answer.AlreadyRunning? ==> AnyOwner(old(View()))
      ensures answer.Owned? <==>
                && id.stream != "" && id.start != "" && id.encoder != "" && id.jobGeneration != 0 && id.archiveRun != ""
                && id.start !in old(preparations) && (forall k | k in old(processes) :: old(AtRest(processes[k])))
                && durable.Some? && durable.value < id.jobGeneration
    {
      if id.stream == "" || id.start == "" || id.encoder == "" || id.jobGeneration == 0 || id.archiveRun == "" {
        return Conflict;
      }
      if id.start in preparations {
        return Conflict;
      }
      var owned := FindOwner("", true);
      if owned {
        return AlreadyRunning;
      }
      if durable.None? {
        return ReadFailed;
      }
      if durable.value >= id.jobGeneration {
        return Conflict;
      }
      var t := RegisterPreparation(id);
      answer := Owned(t);
    }

    /** A legacy start reserves its stream unless its own stream is busy or a
        managed preparation owns the one slot. */
    method ReserveLegacy(stream: string) returns (answer: StartAnswer)
      requires Valid()
      modifies this
      ensures Valid() && View() == Do(old(View()), LegacyReserve(stream))
      ensures answer.SlotTaken? <==> LegacyBlocked(old(View()), stream)
      ensures answer.SlotTaken? <==> exists k | k in old(processes) ::
                old(!AtRest(processes[k]) && (k == stream || processes[k].preparation.Held?))
    {
      var blocked := FindOwner(stream, false);
      if blocked {
        return SlotTaken;
      }
      var t := AddRecord(stream, Reserving, Legacy);
      answer := StartAnswer.Reserved(t);
    }

    method CloseReservation(t: TrackedProcess)
      requires Valid() && Known(t)
      modifies t
      ensures Valid() && Known(t)
      ensures View() == var s := old(View()); s.(tracked := s.tracked[t.id := s.tracked[t.id].(starter := Over)])
    {
      t.starter := Over;
      OneRecordMoved(t);
    }

    /** The deferred step of a legacy start that failed. */
    method AbandonLegacy(t: TrackedProcess)
      requires Valid() && Known(t) && t.starter.Reserving?
      modifies t, this`processes
      ensures Valid() && View() == Do(old(View()), LegacyAbandon(t.id))
    {
      CloseReservation(t);
      if Current(t) {
        Unmap(t.stream);
      }
    }

    method Unmap(stream: string)
      requires Valid()
      modifies this`processes
      ensures Valid() && View() == old(View()).(processes := old(View()).processes - {stream})
    {
      processes := processes - {stream};
    }

    /** A legacy start replaces its reservation by a running record. */
    method InstallLegacy(t: TrackedProcess) returns (u: TrackedProcess)
      requires Valid() && Known(t) && t.starter.Reserving?
      modifies t, this`processes, this`arena
      ensures Valid() && View() == Do(old(View()), LegacyInstall(t.id))
      ensures Current(u) && u.stream == t.stream && u.status.StatusRunning? && u.process.Alive? && u.preparation.Legacy?
    {
      CloseReservation(t);
      ghost var kept := View();
      u := AddRecord(t.stream, NoStarter, Legacy);
      ghost var reserved := View();
      assert reserved.tracked[u.id] == u.View();
      StartRecord(u);
      assert View().tracked == kept.tracked + [LegacyRunning(t.stream)];
    }

    method StartRecord(u: TrackedProcess)
      requires Valid() && Known(u)
      modifies u
      ensures Valid() && u.status.StatusRunning? && u.process.Alive? && u.preparation == old(u.preparation)
      ensures View() == var s := old(View());
        s.(tracked := s.tracked[u.id := s.tracked[u.id].(status := StatusRunning, process := Alive, waiter := Waiting,
                                                         feed := true)])
    {
      u.MarkRunning();
      OneRecordMoved(u);
    }
  }
}
