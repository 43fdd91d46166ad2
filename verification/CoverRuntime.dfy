/** The tracked process of one stream, as its cover and watermark calls change it. */
module CoverRuntime {
  import opened Common
  import opened CoverState
  import opened CoverTheorems

  class Tracked {
    const stream: string
    const described: Asset -> bool
    const fingerprintOf: Request -> Fingerprint
    const start: Start
    var status: Status
    var state: State
    var watermark: Layer
    var replays: map<string, Replay>
    var replayOrder: seq<string>
    var terminal: Terminal
    ghost var graphed: Graphed

    /** A process that has been started and not yet committed. */
    constructor (stream: string, described: Asset -> bool, fingerprintOf: Request -> Fingerprint, generation: nat,
                 start: Start, watermark: Layer)
      ensures View() == PreparedRuntime(generation, start, watermark) && Valid()
      ensures state.job == start.job && state.generation == generation && this.watermark == watermark
      ensures state.graph.applied.Unknown? && state.graph.seen.NoWitness? && state.readiness.NotReady?
      ensures start.job > 0 ==>
                && state.error.GraphUnavailable?
                && state.desired.active == start.active && state.desired.revision == start.revision
                && state.desired.variant == if start.active && start.asset.Some? then start.asset.value.variant else ""
      ensures start.job == 0 ==> state.error.CapabilityRequired? && state.desired == Desired(false, 0, false, "")
    {
      this.stream, this.described, this.fingerprintOf, this.start := stream, described, fingerprintOf, start;
      var s := PreparedRuntime(generation, start, watermark);
      this.status, this.state, this.watermark := Starting, s.state, watermark;
      this.replays, this.replayOrder, this.terminal, this.graphed := map[], [], NoTerminal, s.graphed;
      new;
      PreparedInv(generation, start, watermark);
    }

    ghost function View(): Session
      reads this
    {
      Session(start, status, state, watermark, Table(replays, replayOrder), terminal, graphed)
    }

    ghost predicate Valid()
      reads this
    {
      Inv(View())
    }

    /** Publishes the start once its first frame has been witnessed. */
    method CommitStart()
      requires Valid() && status.Starting?
      modifies this
      ensures Valid() && View() == Committing(old(View()))
      ensures status.Running? && (old(state.job) == 0 ==> state == old(state))
      ensures old(state.job) > 0 ==>
                && Shows(state, start.active, start.revision, start.asset)
                && state.job == old(state.job) && state.generation == old(state.generation)
    {
      StepKeeps(View(), Op.Commit);
      if state.job != 0 {
        MarkCoverApplied(start.revision, start.active, start.asset);
        graphed := graphed.(last := Asked(start.active, start.revision, start.asset));
      }
      status := Running;
    }

    method StoreReplay(key: string, replay: Replay)
      modifies this`replays, this`replayOrder
      ensures Table(replays, replayOrder) == Stored(old(Table(replays, replayOrder)), key, replay)
    {
      if key !in replays {
        replayOrder := replayOrder + [key];
      }
      replays := replays[key := replay];
      ghost var target := Trimmed(Table(replays, replayOrder));
      while |replayOrder| > MaxReplays
        invariant Trimmed(Table(replays, replayOrder)) == target
        decreases |replayOrder|
      {
        var oldest := replayOrder[0];
        replayOrder := replayOrder[1..];
        replays := replays - {oldest};
      }
    }

    method Reject(r: Request, fingerprint: Fingerprint, code: Code) returns (result: Result)
      modifies this`replays, this`replayOrder
      ensures (View(), result) == Rejecting(old(View()), r, fingerprint, code)
    {
      var response := RejectedFrom(Snapshot(state, watermark), r, code);
      StoreReplay(r.key, Replay(fingerprint, response));
      result := Answered(response);
    }

    method MarkCoverApplied(revision: nat, active: bool, asset: Option<Asset>)
      modifies this`state
      ensures state == MarkApplied(old(state), active, revision, asset, watermark)
      ensures Shows(state, active, revision, asset)
    {
      var variant := if active && asset.Some? then asset.value.variant else "";
      state := state.(asset := if active && asset.Some? then asset else None);
      state := state.(desired := Desired(active, revision, active, variant));
      var cover := Layer(active, revision, variant);
      state := state.(readiness := Ready, error := NoCode);
      state := state.(graph := Graph(Known(active, revision, variant), NoLastGood, cover, watermark,
                                     Witness(state.generation, revision, active, cover, watermark)));
    }

    /** Writes the frame and waits for the graph. Whatever was not seen stays
        ambiguous, and the request is never tried again by itself. */
    method Deliver(r: Request, fingerprint: Fingerprint, sight: Sight) returns (result: Result)
      modifies this
      ensures (View(), result) == Delivering(old(View()), r, fingerprint, sight)
      ensures sight.Witnessed? ==> Shows(state, r.active, r.revision, r.asset)
    {
      var lastGood := if state.graph.lastGood.LastGood? then state.graph.lastGood.good else state.graph.applied;
      state := state.(desired := DesiredOf(r), asset := WantedAsset(r));
      if sight.Witnessed? || sight.written {
        graphed := graphed.(feed := graphed.feed + [r.revision]);
      }
      if !sight.Witnessed? {
        state := state.(readiness := Unsure, error := Ambiguous);
        state := state.(graph := state.graph.(applied := Unknown, seen := NoWitness, lastGood := LastGood(lastGood),
                                              watermark := watermark));
        var response := Response(r.revision, r.job, state.generation, WasAmbiguous, state, Ambiguous);
        StoreReplay(r.key, Replay(fingerprint, response));
        return Answered(response);
      }
      MarkCoverApplied(r.revision, r.active, r.asset);
      graphed := graphed.(last := Asked(r.active, r.revision, r.asset));
      var response := Response(r.revision, r.job, state.generation, WasApplied, state, NoCode);
      StoreReplay(r.key, Replay(fingerprint, response));
      result := Answered(response);
    }

    /** Answers for a process that is no longer running. */
    method AnswerWhileStopped(r: Request) returns (result: Result)
      ensures result == AnswerStopped(View(), r)
    {
      var last := Snapshot(state, watermark);
      if state.job == 0 || state.generation == 0 {
        if terminal.NoTerminal? || terminal.last.job == 0 || terminal.last.generation == 0 {
          return Refused(NotRunning);
        }
        last := terminal.last;
      }
      if r.job != last.job {
        return Answered(RejectedFrom(last, r, StaleJob));
      }
      if r.expected != last.generation {
        return Answered(RejectedFrom(last, r, StaleGeneration));
      }
      if r.revision < last.desired.revision {
        return Answered(RejectedFrom(last, r, StaleRevision));
      }
      if r.revision == last.desired.revision {
        return Answered(RejectedFrom(last, r, RevisionConflict));
      }
      return Answered(RejectedFrom(TerminalState(last), r, GraphUnavailable));
    }

    /** One fenced, idempotent apply. */
    method ApplyVideoCover(r: Request, load: Load, sight: Sight) returns (result: Result)
      requires Valid()
      modifies this
      ensures Valid()
      ensures !ValidRequest(stream, described, r) ==> result == Refused(InvalidRequest) && View() == old(View())
      ensures result != Refused(InvalidRequest) ==>
                && r.stream == stream && r.job >= 1 && r.expected >= 1 && r.revision >= 1
                && 1 <= |r.key| <= 128 && (forall i | 0 <= i < |r.key| :: r.key[i] >= ' ' && r.key[i] != '\U{7F}')
                && (r.active <==> r.asset.Some?) && (r.active <==> !r.hideConfirmed)
                && (r.asset.Some? ==> described(r.asset.value))
      ensures ValidRequest(stream, described, r) ==>
                (View(), result) == Applying(old(View()), r, fingerprintOf(r), load, sight)
    {
      if !ValidRequest(stream, described, r) {
        return Refused(InvalidRequest);
      }
      ApplyKeeps(View(), r, fingerprintOf(r), load, sight);
      if !status.Running? {
        result := AnswerWhileStopped(r);
        return;
      }
      if state.job == 0 {
        return Refused(CapabilityRequired);
      }
      var fingerprint := fingerprintOf(r);
      if r.key in replays {
        if replays[r.key].fingerprint != fingerprint {
          return Answered(RejectedFrom(Snapshot(state, watermark), r, KeyConflict));
        }
        return Answered(replays[r.key].response);
      }
      result := ApplyFresh(r, fingerprint, load, sight);
    }

    method ApplyFresh(r: Request, fingerprint: Fingerprint, load: Load, sight: Sight) returns (result: Result)
      requires status.Running? && state.job > 0 && r.key !in replays
      modifies this
      ensures (View(), result) == Applying(old(View()), r, fingerprint, load, sight)
    {
      if r.job != state.job {
        result := Reject(r, fingerprint, StaleJob);
        return;
      }
      if r.expected != state.generation {
        result := Reject(r, fingerprint, StaleGeneration);
        return;
      }
      if r.revision < state.desired.revision {
        result := Reject(r, fingerprint, StaleRevision);
        return;
      }
      if r.revision == state.desired.revision {
        result := Reject(r, fingerprint, RevisionConflict);
        return;
      }
      if r.active {
        if load.NoLoader? {
          result := Reject(r, fingerprint, CapabilityRequired);
          return;
        }
        if load.LoadFailed? {
          if load.code.InvalidRequest? {
            return Refused(InvalidRequest);
          }
          result := Reject(r, fingerprint, if load.code.NoCode? then Media(Timeout) else load.code);
          return;
        }
      }
      result := Deliver(r, fingerprint, sight);
    }

    method MarkWatermarkWitnessUnknown()
      modifies this`state
      ensures state == LoseWitness(old(state), watermark)
    {
      if state.job == 0 {
        return;
      }
      if state.graph.applied.Known? {
        state := state.(graph := state.graph.(lastGood := LastGood(state.graph.applied)));
      }
      state := state.(readiness := Unsure, error := GraphUnavailable);
      state := state.(graph := state.graph.(applied := Unknown, seen := NoWitness, watermark := watermark));
    }

    /** The process exits on its own; whether it runs is all that changes. */
    method ProcessStops()
      requires Valid()
      modifies this`status
      ensures Valid() && View() == Step(old(View()), Op.Stop)
    {
      StepKeeps(View(), Op.Stop);
      status := Stopped;
    }

    /** An update of the runtime settings: admitted while the process runs, which may
        stop before the new watermark has been seen. The caller is told then that the
        update failed, although the watermark has changed. */
    method UpdateSettings(enabled: bool, variant: string, observed: bool, stops: bool) returns (ok: bool)
      requires Valid()
      modifies this
      ensures Valid()
      ensures !old(status.Running?) ==> !ok && View() == old(View())
      ensures old(status.Running?) ==>
                && View() == Watermarking(if stops then Step(old(View()), Op.Stop) else old(View()),
                                          enabled, variant, observed)
                && (ok <==> !stops && observed)
    {
      if !status.Running? {
        return false;
      }
      if stops {
        ProcessStops();
      }
      ok := UpdateWatermark(enabled, variant, observed);
    }

    /** The rest of an admitted update; the process may have stopped meanwhile, and
        then the caller is told so although the watermark has changed. */
    method UpdateWatermark(enabled: bool, variant: string, observed: bool) returns (ok: bool)
      requires Valid() && !status.Starting?
      modifies this
      ensures Valid() && View() == Watermarking(old(View()), enabled, variant, observed)
      ensures ok <==> status.Running? && observed
    {
      StepKeeps(View(), Op.Watermark(enabled, variant, observed));
      if !observed {
        MarkWatermarkWitnessUnknown();
        return false;
      }
      watermark := Layer(enabled, (watermark.revision + 1) % RevisionLimit, if enabled then variant else "");
      if state.job != 0 {
        state := state.(graph := state.graph.(watermark := watermark));
        if state.graph.seen.Witness? {
          state := state.(graph := state.graph.(seen := state.graph.seen.(watermark := watermark)));
        }
      }
      ok := status.Running?;
    }

    /** What a caller is told about the runtime; the state itself when all is well. */
    method VideoCoverState() returns (r: Option<State>)
      requires Valid()
      ensures r.Some? <==> status.Running? && state.job > 0
      ensures r.Some? ==> r.value == state && GraphTrue(r.value, watermark, graphed.last)
    {
      if !status.Running? || state.job == 0 {
        return None;
      }
      return Some(Snapshot(state, watermark));
    }

    /** Drops the job once a finished process has been packaged. */
    method ForgetJob()
      requires Valid()
      modifies this
      ensures Valid() && View() == Retiring(old(View()))
    {
      StepKeeps(View(), Op.Retire);
      status := Stopped;
      if state.job > 0 && state.generation > 0 {
        terminal := Terminal(TerminalState(Snapshot(state, watermark)));
      } else if terminal.Terminal? && terminal.last.job > 0 && terminal.last.generation > 0 {
        terminal := Terminal(TerminalState(terminal.last));
      }
      replays, replayOrder, state := map[], [], EmptyState;
    }
  }
}
