/** The Video Cover runtime as values: what one fenced apply, one watermark
    update, a stop and a retirement do to it. Loading an asset and witnessing the
    graph are arguments. */
module CoverState {
  import opened Common

  const MaxReplays := 256
  const RevisionLimit := 0x1_0000_0000_0000_0000

  datatype Readiness = Ready | NotReady | Unsure

  datatype AssetCode = Unauthorized | NotFound | HashMismatch | DimensionMismatch | Timeout | FormatUnsupported
                     | TooLarge | DecodeFailed | AspectRatioInvalid | VariantProcessing | VariantFailed

  datatype Code = NoCode | Media(why: AssetCode) | GraphUnavailable | CapabilityRequired | StaleJob | StaleGeneration
                | StaleRevision | KeyConflict | Ambiguous | RevisionConflict | InvalidRequest | NotRunning

  datatype Applied = Unknown | Known(active: bool, revision: nat, variant: string)
  datatype LastGood = NoLastGood | LastGood(good: Applied)
  datatype Layer = Layer(enabled: bool, revision: nat, variant: string)
  datatype Witness = NoWitness | Witness(generation: nat, revision: nat, active: bool, cover: Layer, watermark: Layer)
  datatype Desired = Desired(active: bool, revision: nat, upload: bool, variant: string)

  /** What is known about the picture that the graph shows. */
  datatype Graph = Graph(applied: Applied, lastGood: LastGood, cover: Layer, watermark: Layer, seen: Witness)

  datatype State = State(job: nat, generation: nat, readiness: Readiness, error: Code, desired: Desired,
                         asset: Option<Asset>, graph: Graph)

  datatype Asset = Asset(variant: string, digest: string)

  datatype Request = Request(stream: string, job: nat, expected: nat, revision: nat, key: string,
                             active: bool, asset: Option<Asset>, hideConfirmed: bool)

  datatype Outcome = WasApplied | WasAmbiguous | WasRejected

  datatype Response = Response(requested: nat, job: nat, generation: nat, outcome: Outcome, actual: State, error: Code)

  datatype Result = Refused(code: Code) | Answered(response: Response)

  type Fingerprint = string

  datatype Replay = Replay(fingerprint: Fingerprint, response: Response)

  datatype Table = Table(entries: map<string, Replay>, order: seq<string>)

  /** How loading the requested asset went. */
  datatype Load = Loaded | NoLoader | LoadFailed(code: Code)

  /** How delivery and observation went; an unobserved frame may or may not have
      been written to the feed. */
  datatype Sight = Witnessed | Unobserved(written: bool)

  /** The feed as it was written to, and what the start or request asked for whose
      delivery was the last to be witnessed. */
  datatype Graphed = Graphed(feed: seq<nat>, last: Applied)

  /** A process is starting until its commit, and stops for good. */
  datatype Status = Starting | Running | Stopped

  /** What a start asks for; `job` 0 for one that does not negotiate a cover. */
  datatype Start = Start(job: nat, active: bool, revision: nat, asset: Option<Asset>)

  datatype Session = Session(start: Start, status: Status, state: State, watermark: Layer, table: Table,
                             terminal: Terminal, graphed: Graphed)

  datatype Terminal = NoTerminal | Terminal(last: State)

  // ----- Validation -----

  predicate EdgeSpace(c: char) { IsSpace(c) || c == '\U{FEFF}' }

  predicate ValidKey(key: string) {
    && 1 <= |key| <= 128 && !EdgeSpace(key[0]) && !EdgeSpace(key[|key| - 1])
    && forall i | 0 <= i < |key| :: key[i] >= '\U{20}' && key[i] != '\U{7F}'
  }

  predicate ValidRequest(stream: string, described: Asset -> bool, r: Request) {
    && (exists i | 0 <= i < |stream| :: !IsSpace(stream[i]))
    && r.stream == stream && r.job >= 1 && r.expected >= 1 && r.revision >= 1 && ValidKey(r.key)
    && (if r.active then r.asset.Some? && !r.hideConfirmed && described(r.asset.value)
        else r.asset.None? && r.hideConfirmed)
  }

  // ----- State changes -----

  function Variant(r: Request): string {
    if r.active && r.asset.Some? then r.asset.value.variant else ""
  }

  function WantedAsset(r: Request): Option<Asset> {
    if r.active then r.asset else None
  }

  function DesiredOf(r: Request): Desired {
    Desired(r.active, r.revision, r.active && r.asset.Some?, Variant(r))
  }

  /** What a start or a request asks to be shown. */
  function Asked(active: bool, revision: nat, asset: Option<Asset>): Applied {
    Known(active, revision, if active && asset.Some? then asset.value.variant else "")
  }

  function CoverLayer(a: Applied): Layer
    requires a.Known?
  {
    Layer(a.active, a.revision, a.variant)
  }

  function MarkApplied(s: State, active: bool, revision: nat, asset: Option<Asset>, watermark: Layer): State {
    var variant := if active && asset.Some? then asset.value.variant else "";
    var cover := Layer(active, revision, variant);
    State(s.job, s.generation, Ready, NoCode, Desired(active, revision, active, variant),
          if active then asset else None,
          Graph(Known(active, revision, variant), NoLastGood, cover, watermark,
                Witness(s.generation, revision, active, cover, watermark)))
  }

  function MarkAmbiguous(s: State, r: Request, watermark: Layer): State {
    var good := if s.graph.lastGood.LastGood? then s.graph.lastGood else LastGood(s.graph.applied);
    State(s.job, s.generation, Unsure, Ambiguous, DesiredOf(r), WantedAsset(r),
          Graph(Unknown, good, s.graph.cover, watermark, NoWitness))
  }

  function LoseWitness(s: State, watermark: Layer): State {
    if s.job == 0 then s
    else
      var good := if s.graph.applied.Known? then LastGood(s.graph.applied) else s.graph.lastGood;
      s.(readiness := Unsure, error := GraphUnavailable,
         graph := Graph(Unknown, good, s.graph.cover, watermark, NoWitness))
  }

  function TerminalState(s: State): State {
    var good := if s.graph.applied.Known? then LastGood(s.graph.applied) else s.graph.lastGood;
    s.(readiness := NotReady, error := GraphUnavailable,
       graph := s.graph.(applied := Unknown, lastGood := good, seen := NoWitness))
  }

  function WithWatermark(g: Graph, watermark: Layer): Graph {
    g.(watermark := watermark, seen := if g.seen.Witness? then g.seen.(watermark := watermark) else NoWitness)
  }

  /** The state with the watermark that is current now. */
  function Snapshot(s: State, watermark: Layer): State {
    s.(graph := WithWatermark(s.graph, watermark))
  }

  const EmptyLayer := Layer(false, 0, "")
  const EmptyState := State(0, 0, NotReady, NoCode, Desired(false, 0, false, ""), None,
                            Graph(Unknown, NoLastGood, EmptyLayer, EmptyLayer, NoWitness))

  /** A runtime before its commit: the first frame is in the feed, nothing has been
      witnessed. */
  function PreparedRuntime(generation: nat, start: Start, watermark: Layer): Session {
    var desired := if start.job == 0 then EmptyState.desired
                   else Desired(start.active, start.revision, start.active && start.asset.Some?,
                                if start.active && start.asset.Some? then start.asset.value.variant else "");
    var state := State(start.job, generation, NotReady, if start.job == 0 then CapabilityRequired else GraphUnavailable,
                       desired, None, Graph(Unknown, NoLastGood, Layer(false, 1, ""), watermark, NoWitness));
    Session(start, Starting, state, watermark, Table(map[], []), NoTerminal,
            Graphed(if start.job == 0 then [] else [start.revision], Unknown))
  }

  /** The commit of a start, once its first frame has been witnessed. */
  function Committing(s: Session): Session {
    if !s.status.Starting? then s
    else if s.state.job == 0 then s.(status := Running)
    else
      var state := MarkApplied(s.state, s.start.active, s.start.revision, s.start.asset, s.watermark);
      s.(status := Running, state := state,
         graphed := s.graphed.(last := Asked(s.start.active, s.start.revision, s.start.asset)))
  }

  // ----- Replay table -----

  function Trimmed(t: Table): Table
    decreases |t.order|
  {
    if |t.order| <= MaxReplays then t else Trimmed(Table(t.entries - {t.order[0]}, t.order[1..]))
  }

  function Stored(t: Table, key: string, replay: Replay): Table {
    Trimmed(Table(t.entries[key := replay], if key in t.entries then t.order else t.order + [key]))
  }

  // ----- Answers -----

  predicate BlamesGraph(code: Code) { code.Media? || code.GraphUnavailable? || code.CapabilityRequired? }

  function RejectedFrom(s: State, r: Request, code: Code): Response {
    var actual := if BlamesGraph(code) then s.(readiness := NotReady, error := code) else s;
    Response(r.revision, s.job, s.generation, WasRejected, actual, code)
  }

  /** The fence a request runs into, if any. */
  function Fence(s: State, r: Request): Code {
    if r.job != s.job then StaleJob
    else if r.expected != s.generation then StaleGeneration
    else if r.revision < s.desired.revision then StaleRevision
    else if r.revision == s.desired.revision then RevisionConflict
    else NoCode
  }

  /** The code that loading leads to: only an active request loads anything. */
  function LoadCode(r: Request, load: Load): Code {
    if !r.active || load.Loaded? then NoCode
    else if load.NoLoader? then CapabilityRequired
    else if load.code.NoCode? then Media(Timeout)
    else load.code
  }

  function RejectionState(s: Session): Terminal {
    if s.state.job > 0 && s.state.generation > 0 then Terminal(Snapshot(s.state, s.watermark))
    else if s.terminal.Terminal? && s.terminal.last.job > 0 && s.terminal.last.generation > 0 then s.terminal
    else NoTerminal
  }

  function AnswerStopped(s: Session, r: Request): Result {
    match RejectionState(s)
    case NoTerminal => Refused(NotRunning)
    case Terminal(last) =>
      if Fence(last, r).NoCode? then Answered(RejectedFrom(TerminalState(last), r, GraphUnavailable))
      else Answered(RejectedFrom(last, r, Fence(last, r)))
  }

  function Remembering(s: Session, r: Request, fingerprint: Fingerprint, response: Response): Session {
    s.(table := Stored(s.table, r.key, Replay(fingerprint, response)))
  }

  function Rejecting(s: Session, r: Request, fingerprint: Fingerprint, code: Code): (Session, Result) {
    var response := RejectedFrom(Snapshot(s.state, s.watermark), r, code);
    (Remembering(s, r, fingerprint, response), Answered(response))
  }

  /** The feed is written to and the graph observed. */
  function Delivering(s: Session, r: Request, fingerprint: Fingerprint, sight: Sight): (Session, Result) {
    var witnessed := sight.Witnessed?;
    var state := if witnessed then MarkApplied(s.state, r.active, r.revision, r.asset, s.watermark)
                 else MarkAmbiguous(s.state, r, s.watermark);
    var response := Response(r.revision, r.job, state.generation, if witnessed then WasApplied else WasAmbiguous,
                             state, state.error);
    var feed := if witnessed || sight.written then s.graphed.feed + [r.revision] else s.graphed.feed;
    var after := s.(state := state,
                    graphed := Graphed(feed, if witnessed then Asked(r.active, r.revision, r.asset)
                                             else s.graphed.last));
    (Remembering(after, r, fingerprint, response), Answered(response))
  }

  /** One apply of a valid request. */
  function Applying(s: Session, r: Request, fingerprint: Fingerprint, load: Load, sight: Sight): (Session, Result) {
    if !s.status.Running? then (s, AnswerStopped(s, r))
    else if s.state.job == 0 then (s, Refused(CapabilityRequired))
    else if r.key in s.table.entries then
      if s.table.entries[r.key].fingerprint == fingerprint then (s, Answered(s.table.entries[r.key].response))
      else (s, Answered(RejectedFrom(Snapshot(s.state, s.watermark), r, KeyConflict)))
    else if !Fence(s.state, r).NoCode? then Rejecting(s, r, fingerprint, Fence(s.state, r))
    else if LoadCode(r, load).InvalidRequest? then (s, Refused(InvalidRequest))
    else if !LoadCode(r, load).NoCode? then Rejecting(s, r, fingerprint, LoadCode(r, load))
    else Delivering(s, r, fingerprint, sight)
  }

  /** One watermark update. It is admitted while the process runs, and may still go
      through after the process has stopped; the revision is a 64-bit counter. */
  function Watermarking(s: Session, enabled: bool, variant: string, observed: bool): Session {
    if !observed then s.(state := LoseWitness(s.state, s.watermark))
    else
      var watermark := Layer(enabled, (s.watermark.revision + 1) % RevisionLimit, if enabled then variant else "");
      s.(watermark := watermark,
         state := if s.state.job == 0 then s.state else s.state.(graph := WithWatermark(s.state.graph, watermark)))
  }

  /** A finished process drops its job, its replays and its cover state. */
  function Retiring(s: Session): Session {
    var terminal := match RejectionState(s)
                    case NoTerminal => s.terminal
                    case Terminal(last) => Terminal(TerminalState(last));
    s.(status := Stopped, state := EmptyState, table := Table(map[], []), terminal := terminal)
  }

  datatype Op = Apply(request: Request, fingerprint: Fingerprint, load: Load, sight: Sight)
              | Watermark(enabled: bool, variant: string, observed: bool)
              | Commit
              | Stop
              | Retire

  function Step(s: Session, op: Op): Session {
    match op
    case Apply(r, fingerprint, load, sight) => Applying(s, r, fingerprint, load, sight).0
    case Watermark(enabled, variant, observed) =>
      if s.status.Starting? then s else Watermarking(s, enabled, variant, observed)
    case Commit => Committing(s)
    case Stop => s.(status := Stopped)
    case Retire => Retiring(s)
  }

  function Run(s: Session, ops: seq<Op>): Session
    decreases |ops|
  {
    if ops == [] then s else Run(Step(s, ops[0]), ops[1..])
  }
}
