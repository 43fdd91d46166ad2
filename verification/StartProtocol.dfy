/** The two-phase stream start as a state machine: one step per mutex-held
    region, channel operation or actor decision, over the records that the
    manager's references denote. A channel is a count of its close calls, so that
    closing twice is visible; a wait with a deadline may give up at any time. */
module StartProtocol {
  import opened Common

  datatype Phase = Preparing | Prepared | Committing | Running | Failed | Aborted | Expired {
    predicate Terminal() { Failed? || Aborted? || Expired? }
  }

  datatype Status =
    | StatusStarting | StatusRunning | StatusStopping | StatusPackaging
    | StatusFailed | StatusStopped

  datatype Identity = Identity(stream: string, start: string, encoder: string,
                               jobGeneration: nat, archiveRun: string)

  datatype Process = NoProcess | Alive | Dead

  /** The HTTP handler that owns one prepare request. */
  datatype OwnerPc = Began | Bridged | HandedOver | Reserved | Spawned | Returned | Finished

  /** The goroutine that reaps one process. */
  datatype WaitPc = NoWaiter | Waiting | Lost | Reaped | CleanupRequested | Released

  datatype CommitPc = NoCommit | Witnessing | Committed | CommitFailed

  /** The one abort call that gets past the abortStarted flag. */
  datatype AbortPc =
    | NoAbort | AwaitPrepare | AwaitExit | RequestCleanup | AwaitCleanup | AbortDone | AbortTimedOut

  datatype AbortCaller = ByRequest | ByExpiry | ByCommit | ByOwner

  /** The cleanup goroutine behind cleanupOnce. */
  datatype CleanupPc = NotRequested | Requested | Detached | ClosureDone | CleanupClosed

  /** A legacy start between its reservation and its outcome. */
  datatype StarterPc = NoStarter | Reserving | Over

  /** How often each of the preparation's channels has been closed. */
  datatype Channels = Channels(exited: nat, prepared: nat, cleaned: nat)

  /** The ingest bridges and the closure that stops them: who holds the closure,
      whether the cleanup goroutine captured it, and how often it ran. */
  datatype Bridges = Bridges(present: bool, held: bool, captured: bool, refused: bool, runs: nat)

  datatype Preparation = Preparation(
    identity: Identity,
    phase: Phase,
    owner: OwnerPc,
    commit: CommitPc,
    abort: AbortPc,               // NoAbort while abortStarted is unset
    abortCaller: AbortCaller,
    cleanup: CleanupPc,
    expiryClaimed: bool,
    channels: Channels,
    bridges: Bridges)

  /** A record belongs to a legacy start or to a preparation. */
  datatype Holder = Legacy | Held(p: Preparation)

  datatype Tracked = Tracked(
    stream: string,
    status: Status,
    cleaning: bool,
    process: Process,
    waiter: WaitPc,
    reapedRunning: bool,    // the reaper found a start that was already running
    starter: StarterPc,
    feed: bool,             // the cover and watermark sources are attached
    feedCloses: nat,
    preparation: Holder)

  predicate OwnsSlot(t: Tracked) {
    || t.cleaning
    || t.status.StatusStarting? || t.status.StatusRunning? || t.status.StatusStopping? || t.status.StatusPackaging?
  }

  datatype OwnerAction =
    | AllocateBridges | SetCleanup | GiveUp | ReserveSlot | Spawn | Install(contextDone: bool) | Finish

  datatype ClaimAction = CommitClaim(beforeExpiry: bool) | CommitResolve(witnessed: bool) | Expire(due: bool)

  datatype AbortAction =
    | AbortEnter(caller: AbortCaller) | AbortPrepared | AbortExited | AbortCleanup | AbortTimeout | AbortRelease

  datatype CleanupAction = CleanupDetach | CleanupRun | CleanupClose

  datatype WaitAction = WaitCleanup | WaitRelease

  datatype Action =
    | Owner(o: OwnerAction) | Claim(c: ClaimAction) | Abort(b: AbortAction) | Cleanup(k: CleanupAction)
    | Wait(w: WaitAction) | WaitExit(clean: bool) | ProcessDies | StopRequest

  function CallerPhase(caller: AbortCaller): Phase {
    match caller
    case ByRequest => Aborted
    case ByExpiry => Expired
    case ByCommit => Failed
    case ByOwner => Failed
  }

  predicate MayCall(p: Preparation, caller: AbortCaller) {
    match caller
    case ByRequest => true
    case ByExpiry => p.expiryClaimed
    case ByCommit => p.commit.CommitFailed?
    case ByOwner => p.owner.Finished?
  }

  // ----- One record -----

  /** No action hands a record to another stream, start or kind of owner. */
  predicate SameRecord(t: Tracked, u: Tracked) {
    && u.starter == t.starter && u.stream == t.stream
    && u.preparation.Held? == t.preparation.Held?
    && (u.preparation.Held? ==> u.preparation.p.identity == t.preparation.p.identity)
  }

  /** What one action does to the record it is about. `here` says that the
      process table still maps the stream to this very record, `listed` that the
      receipt table still maps the start id to it. A disabled action, and an
      action that the code answers with an error, leaves the record alone. */
  function Apply(t: Tracked, here: bool, listed: bool, a: Action): (u: Tracked)
    ensures SameRecord(t, u)
  {
    match a
    case ProcessDies => if t.process.Alive? then t.(process := Dead) else t
    case StopRequest => if here && t.status.StatusRunning? then t.(status := StatusStopping) else t
    case WaitExit(clean) => if t.waiter.Waiting? && t.process.Dead? then ApplyExit(t, here, clean) else t
    case Wait(w) => ApplyWait(t, w)
    case Owner(o) => if t.preparation.Held? then ApplyOwner(t, t.preparation.p, here, o) else t
    case Claim(c) => if t.preparation.Held? then ApplyClaim(t, t.preparation.p, here, listed, c) else t
    case Abort(b) => if t.preparation.Held? then ApplyAbort(t, t.preparation.p, here, b) else t
    case Cleanup(k) => if t.preparation.Held? then ApplyCleanup(t, t.preparation.p, k) else t
  }

  function ApplyOwner(t: Tracked, p: Preparation, here: bool, a: OwnerAction): (u: Tracked)
    requires t.preparation == Held(p)
    ensures SameRecord(t, u)
  {
    match a
    case AllocateBridges =>
      if p.owner.Began? then t.(preparation := Held(p.(owner := Bridged, bridges := p.bridges.(present := true))))
      else t
    case SetCleanup =>
      if !p.owner.Bridged? then t
      else if here && p.phase.Preparing? then t.(preparation := Held(p.(owner := HandedOver,
                                                                        bridges := p.bridges.(held := true))))
      else t.(preparation := Held(p.(owner := Returned,
                                     bridges := p.bridges.(refused := true, runs := p.bridges.runs + 1))))
    case GiveUp =>
      if p.owner.Began? || p.owner.HandedOver? || p.owner.Reserved? then t.(preparation := Held(p.(owner := Returned)))
      else t
    case ReserveSlot =>
      if !p.owner.HandedOver? then t
      else t.(preparation := Held(p.(owner := if here && p.phase.Preparing? then Reserved else Returned)))
    case Spawn =>
      if p.owner.Reserved? then t.(preparation := Held(p.(owner := Spawned))) else t
    case Install(contextDone) =>
      if !p.owner.Spawned? then t
      else
        var cancelled := !p.phase.Preparing? || contextDone;
        t.(status := StatusStarting, process := Alive, waiter := Waiting, feed := true,
           preparation := Held(p.(owner := Returned, phase := if cancelled then p.phase else Prepared)))
    case Finish =>
      if p.owner.Returned?
      then t.(preparation := Held(p.(owner := Finished, channels := p.channels.(prepared := p.channels.prepared + 1))))
      else t
  }

  function ApplyClaim(t: Tracked, p: Preparation, here: bool, listed: bool, a: ClaimAction): (u: Tracked)
    requires t.preparation == Held(p)
    ensures SameRecord(t, u)
  {
    match a
    case CommitClaim(beforeExpiry) =>
      if p.phase.Prepared? && here && beforeExpiry
      then t.(preparation := Held(p.(phase := Committing, commit := Witnessing))) else t
    case CommitResolve(witnessed) =>
      if !p.commit.Witnessing? then t
      else if witnessed && here && p.phase.Committing? && t.status.StatusStarting?
      then t.(status := StatusRunning, preparation := Held(p.(phase := Running, commit := Committed)))
      else t.(preparation := Held(p.(commit := CommitFailed)))
    case Expire(due) =>
      if listed && here && p.phase.Prepared? && due
      then t.(cleaning := true, preparation := Held(p.(phase := Expired, expiryClaimed := true)))
      else t
  }

  function ApplyAbort(t: Tracked, p: Preparation, here: bool, a: AbortAction): (u: Tracked)
    requires t.preparation == Held(p)
    ensures SameRecord(t, u)
  {
    match a
    case AbortEnter(caller) => if here && MayCall(p, caller) then ApplyEnter(t, p, caller) else t
    case AbortPrepared =>
      if p.abort.AwaitPrepare? && p.channels.prepared > 0
      then t.(preparation := Held(p.(abort := if t.process.NoProcess? then RequestCleanup else AwaitExit)))
      else t
    case AbortExited =>
      if p.abort.AwaitExit? && p.channels.exited > 0 then t.(preparation := Held(p.(abort := RequestCleanup))) else t
    case AbortCleanup =>
      if p.abort.RequestCleanup? then t.(preparation := Held(CleanupOnce(p).(abort := AwaitCleanup))) else t
    case AbortTimeout =>
      if p.abort.AwaitPrepare? || p.abort.AwaitExit? || p.abort.AwaitCleanup?
      then t.(preparation := Held(p.(abort := AbortTimedOut))) else t
    case AbortRelease =>
      if !(p.abort.AwaitCleanup? && p.channels.cleaned > 0) then t
      else if here
      then t.(status := StatusFailed, cleaning := false,
              preparation := Held(p.(phase := CallerPhase(p.abortCaller), abort := AbortDone)))
      else t.(preparation := Held(p.(abort := AbortDone)))
  }

  /** The first locked region of an abort: answer at once when everything is
      drained already, otherwise become the only abort or be refused. */
  function ApplyEnter(t: Tracked, p: Preparation, caller: AbortCaller): (u: Tracked)
    requires t.preparation == Held(p)
    ensures SameRecord(t, u)
  {
    if p.channels.cleaned > 0 && p.channels.prepared > 0 && !t.cleaning
    then t.(preparation := Held(p.(phase := CallerPhase(caller))))
    else if !p.abort.NoAbort? then t
    else t.(cleaning := true,
            preparation := Held(p.(phase := CallerPhase(caller),
                                   abort := AwaitPrepare, abortCaller := caller)))
  }

  function CleanupOnce(p: Preparation): Preparation {
    if p.cleanup.NotRequested? then p.(cleanup := Requested) else p
  }

  function ApplyCleanup(t: Tracked, p: Preparation, a: CleanupAction): (u: Tracked)
    requires t.preparation == Held(p)
    ensures SameRecord(t, u)
  {
    match a
    case CleanupDetach =>
      if p.cleanup.Requested?
      then DetachFeed(t).(preparation := Held(p.(cleanup := Detached,
                                                 bridges := p.bridges.(captured := p.bridges.held))))
      else t
    case CleanupRun =>
      if p.cleanup.Detached?
      then t.(preparation := Held(p.(cleanup := ClosureDone,
                                     bridges := if p.bridges.captured
                                                then p.bridges.(runs := p.bridges.runs + 1)
                                                else p.bridges)))
      else t
    case CleanupClose =>
      if p.cleanup.ClosureDone?
      then t.(preparation := Held(p.(cleanup := CleanupClosed,
                                     channels := p.channels.(cleaned := p.channels.cleaned + 1))))
      else t
  }

  function DetachFeed(t: Tracked): Tracked {
    if t.feed then t.(feed := false, feedCloses := t.feedCloses + 1) else t
  }

  /** The first locked region of the reaper, which looks its record up again. */
  function ApplyExit(t: Tracked, here: bool, clean: bool): (u: Tracked)
    ensures SameRecord(t, u)
  {
    if !here then t.(waiter := Lost)
    else
      var next := if clean || t.status.StatusStopping? then StatusStopped else StatusFailed;
      match t.preparation
      case Legacy => DetachFeed(t).(cleaning := true, status := next, waiter := Reaped, reapedRunning := true)
      case Held(p) =>
        if p.phase.Running?
        then DetachFeed(t).(cleaning := true, status := next, waiter := Reaped, reapedRunning := true,
                            preparation := Held(p.(channels := p.channels.(exited := p.channels.exited + 1),
                                                   phase := Failed)))
        else
          var phase := if p.phase.Aborted? || p.phase.Expired? then p.phase else Failed;
          t.(cleaning := true, status := StatusFailed, waiter := Reaped,
             preparation := Held(p.(channels := p.channels.(exited := p.channels.exited + 1), phase := phase)))
  }

  function ApplyWait(t: Tracked, a: WaitAction): (u: Tracked)
    ensures SameRecord(t, u)
  {
    match t.preparation
    case Legacy =>
      if a.WaitRelease? && t.waiter.Reaped? then t.(cleaning := false, waiter := Released) else t
    case Held(p) =>
      if a.WaitCleanup? && t.waiter.Reaped?
      then t.(waiter := CleanupRequested, preparation := Held(CleanupOnce(p)))
      else if a.WaitRelease? && t.waiter.CleanupRequested? && p.channels.cleaned > 0
              && (t.reapedRunning || p.channels.prepared > 0)
      then t.(cleaning := false, waiter := Released)
      else t
  }

  // ----- The manager -----

  datatype State = State(
    tracked: seq<Tracked>,            // every record ever created; an index is a reference
    processes: map<string, nat>,
    preparations: map<string, nat>,
    order: seq<string>)

  const InitialState := State([], map[], map[], [])

  const MaxReceipts := 64

  datatype Step =
    | Begin(id: Identity, durable: Option<nat>)
    | LegacyReserve(stream: string)
    | LegacyAbandon(i: nat)
    | LegacyInstall(i: nat)
    | Act(i: nat, a: Action)

  predicate Complete(id: Identity) {
    id.stream != "" && id.start != "" && id.encoder != "" && id.jobGeneration != 0 && id.archiveRun != ""
  }

  predicate Here(s: State, i: nat)
    requires i < |s.tracked|
  {
    s.tracked[i].stream in s.processes && s.processes[s.tracked[i].stream] == i
  }

  predicate Listed(s: State, i: nat)
    requires i < |s.tracked|
  {
    var t := s.tracked[i];
    t.preparation.Held? && t.preparation.p.identity.start in s.preparations
    && s.preparations[t.preparation.p.identity.start] == i
  }

  predicate TableOk(s: State) {
    forall k :: k in s.processes ==> s.processes[k] < |s.tracked|
  }

  predicate AnyOwner(s: State)
    requires TableOk(s)
  {
    exists k :: k in s.processes && OwnsSlot(s.tracked[s.processes[k]])
  }

  predicate LegacyBlocked(s: State, stream: string)
    requires TableOk(s)
  {
    exists k :: k in s.processes && OwnsSlot(s.tracked[s.processes[k]])
                && (k == stream || s.tracked[s.processes[k]].preparation.Held?)
  }

  function FreshPreparation(id: Identity): Preparation {
    Preparation(id, Preparing, Began, NoCommit, NoAbort, ByOwner, NotRequested, false,
                Channels(0, 0, 0), Bridges(false, false, false, false, 0))
  }

  function FreshTracked(id: Identity): Tracked {
    Tracked(id.stream, StatusStarting, false, NoProcess, NoWaiter, false, NoStarter, false, 0,
            Held(FreshPreparation(id)))
  }

  function LegacyReservation(stream: string): Tracked {
    Tracked(stream, StatusStarting, false, NoProcess, NoWaiter, false, Reserving, false, 0, Legacy)
  }

  function LegacyRunning(stream: string): Tracked {
    Tracked(stream, StatusRunning, false, Alive, Waiting, false, NoStarter, true, 0, Legacy)
  }

  predicate BeginAccepted(s: State, id: Identity, durable: Option<nat>)
    requires TableOk(s)
  {
    Complete(id) && id.start !in s.preparations && !AnyOwner(s) && durable.Some? && durable.value < id.jobGeneration
  }

  /** Keeps the newest terminal receipts and forgets the oldest. */
  function Remember(s: State, start: string): State {
    if start in s.order then s
    else Trim(s.(order := s.order + [start]))
  }

  function Trim(s: State): State
    decreases |s.order|
  {
    if |s.order| <= MaxReceipts then s
    else Trim(s.(order := s.order[1..], preparations := s.preparations - {s.order[0]}))
  }

  /** Whether an action is the region that also files the terminal receipt. */
  predicate FilesReceipt(t: Tracked, here: bool, a: Action) {
    t.preparation.Held? &&
    var p := t.preparation.p;
    (a == Abort(AbortRelease) && p.abort.AwaitCleanup? && p.channels.cleaned > 0 && here)
    || (a == Wait(WaitRelease) && t.waiter.CleanupRequested? && p.channels.cleaned > 0
        && (t.reapedRunning || p.channels.prepared > 0))
  }

  function Do(s: State, step: Step): State
    requires TableOk(s)
  {
    match step
    case Begin(id, durable) =>
      if BeginAccepted(s, id, durable)
      then s.(tracked := s.tracked + [FreshTracked(id)],
              processes := s.processes[id.stream := |s.tracked|],
              preparations := s.preparations[id.start := |s.tracked|])
      else s
    case LegacyReserve(stream) =>
      if LegacyBlocked(s, stream) then s
      else s.(tracked := s.tracked + [LegacyReservation(stream)], processes := s.processes[stream := |s.tracked|])
    case LegacyAbandon(i) =>
      if i < |s.tracked| && s.tracked[i].starter.Reserving?
      then
        var left := s.(tracked := s.tracked[i := s.tracked[i].(starter := Over)]);
        if Here(s, i) then left.(processes := s.processes - {s.tracked[i].stream}) else left
      else s
    case LegacyInstall(i) =>
      if i < |s.tracked| && s.tracked[i].starter.Reserving?
      then s.(tracked := s.tracked[i := s.tracked[i].(starter := Over)] + [LegacyRunning(s.tracked[i].stream)],
              processes := s.processes[s.tracked[i].stream := |s.tracked|])
      else s
    case Act(i, a) =>
      if i < |s.tracked|
      then
        var t := s.tracked[i];
        var moved := s.(tracked := s.tracked[i := Apply(t, Here(s, i), Listed(s, i), a)]);
        if FilesReceipt(t, Here(s, i), a) then Remember(moved, t.preparation.p.identity.start) else moved
      else s
  }

  function Run(s: State, steps: seq<Step>): (r: State)
    requires TableOk(s)
    ensures TableOk(r)
    decreases |steps|
  {
    if steps == [] then s else (DoKeepsTable(s, steps[0]); Run(Do(s, steps[0]), steps[1..]))
  }

  lemma {:induction false} TrimFields(s: State)
    ensures Trim(s).tracked == s.tracked && Trim(s).processes == s.processes
    ensures |Trim(s).order| <= MaxReceipts
    decreases |s.order|
  {
    if |s.order| > MaxReceipts {
      TrimFields(s.(order := s.order[1..], preparations := s.preparations - {s.order[0]}));
    }
  }

  lemma RememberFields(s: State, start: string)
    ensures Remember(s, start).tracked == s.tracked && Remember(s, start).processes == s.processes
  {
    TrimFields(s.(order := s.order + [start]));
  }

  lemma DoKeepsTable(s: State, step: Step)
    requires TableOk(s)
    ensures TableOk(Do(s, step))
    ensures |s.tracked| <= |Do(s, step).tracked|
  {
    match step
    case Act(i, a) =>
      if i < |s.tracked| {
        var moved := s.(tracked := s.tracked[i := Apply(s.tracked[i], Here(s, i), Listed(s, i), a)]);
        if FilesReceipt(s.tracked[i], Here(s, i), a) {
          RememberFields(moved, s.tracked[i].preparation.p.identity.start);
        }
      }
    case _ =>
  }
}
