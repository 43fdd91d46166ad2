/** The protocol between the callers that replace a frame, the one writer that
    sends frames to the consumer, the waiters for a delivery, and Close. */
module ImageFeed {
  type Frame = seq<int>

  /** The fields guarded by the mutex. `channel` is the current notification channel;
      the closed ones are listed, and `closedTwice` says that one was closed again,
      which would be a run-time failure. */
  datatype Feed = Feed(frame: Frame, version: nat, delivered: nat, channel: nat, closedChannels: set<nat>,
                       closed: bool, updated: bool, closedTwice: bool)

  datatype Writer = Accepting | Ready | Writing(version: nat, pushed: Frame, rest: Frame) | Pushed(version: nat)
                  | Idle(version: nat) | Gone

  datatype Waiting = Checking | Blocked(channel: nat) | Succeeded | FoundClosed | TimedOut

  datatype Waiter = Waiter(version: nat, at: Waiting)

  /** Every frame by version, and the bytes of every complete write by version. */
  datatype Log = Log(frames: seq<Frame>, complete: map<nat, Frame>)

  datatype System = System(feed: Feed, writer: Writer, waiters: map<nat, Waiter>, log: Log)

  datatype Action = Update(frame: Frame) | Close
                  | Sends(w: WriterAction)
                  | Waits(id: nat, a: WaiterAction)

  datatype WriterAction = Accept | Snapshot | Push(n: nat) | Break | Mark | SeeUpdate | Tick | SeeDone

  datatype WaiterAction = Begin(version: nat) | Check | Wake | GiveUp

  function Start(frame: Frame): System {
    System(Feed(frame, 1, 0, 0, {}, false, false, false), Accepting, map[], Log([frame], map[]))
  }

  // ----- The critical sections -----

  function Replace(f: Feed, frame: Frame): Feed {
    f.(frame := frame, version := f.version + 1, updated := true)
  }

  /** A Go channel may be closed only once. */
  predicate CanClose(f: Feed, channel: nat) { channel !in f.closedChannels }

  function CloseChannel(f: Feed, channel: nat): Feed {
    f.(closedChannels := f.closedChannels + {channel}, closedTwice := f.closedTwice || !CanClose(f, channel))
  }

  predicate MarksNothing(f: Feed, version: nat) { f.closed || version <= f.delivered }

  function MarkDelivered(f: Feed, version: nat): Feed {
    if MarksNothing(f, version) then f
    else CloseChannel(f, f.channel).(delivered := version, channel := f.channel + 1)
  }

  function CloseFeed(f: Feed): Feed {
    if f.closed then f else CloseChannel(f, f.channel).(closed := true)
  }

  function CheckOnce(f: Feed, version: nat): Waiting {
    if f.delivered >= version then Succeeded else if f.closed then FoundClosed else Blocked(f.channel)
  }

  // ----- Steps -----

  predicate WriterCan(s: System, a: WriterAction) {
    match a
    case Accept => s.writer.Accepting?
    case Snapshot => s.writer.Ready?
    case Push(n) => s.writer.Writing? && 0 < n <= |s.writer.rest|
    case Break => s.writer.Writing?
    case Mark => s.writer.Pushed?
    case SeeUpdate => s.writer.Idle? && s.feed.updated
    case Tick => s.writer.Idle?
    case SeeDone => s.writer.Idle? && s.feed.closed
  }

  function WriterStep(s: System, a: WriterAction): System
    requires WriterCan(s, a)
  {
    match a
    case Accept => s.(writer := if s.feed.closed then Gone else Ready)
    case Snapshot => s.(writer := if s.feed.closed then Accepting else Writing(s.feed.version, [], s.feed.frame))
    case Push(n) =>
      var pushed, rest := s.writer.pushed + s.writer.rest[..n], s.writer.rest[n..];
      if rest != [] then s.(writer := Writing(s.writer.version, pushed, rest))
      else s.(writer := Pushed(s.writer.version), log := s.log.(complete := s.log.complete[s.writer.version := pushed]))
    case Break => s.(writer := Accepting)
    case Mark => s.(feed := MarkDelivered(s.feed, s.writer.version), writer := Idle(s.writer.version))
    case SeeUpdate => s.(feed := s.feed.(updated := false), writer := Ready)
    case Tick => s.(writer := Ready)
    case SeeDone => s.(writer := Accepting)
  }

  predicate WaiterCan(s: System, id: nat, a: WaiterAction) {
    match a
    case Begin(version) => id !in s.waiters && 1 <= version <= s.feed.version
    case Check => id in s.waiters && s.waiters[id].at.Checking?
    case Wake => id in s.waiters && s.waiters[id].at.Blocked? && s.waiters[id].at.channel in s.feed.closedChannels
    case GiveUp => id in s.waiters && s.waiters[id].at.Blocked?
  }

  function WaiterStep(s: System, id: nat, a: WaiterAction): System
    requires WaiterCan(s, id, a)
  {
    var w := match a
             case Begin(version) => Waiter(version, Checking)
             case Check => s.waiters[id].(at := CheckOnce(s.feed, s.waiters[id].version))
             case Wake => s.waiters[id].(at := Checking)
             case GiveUp => s.waiters[id].(at := TimedOut);
    s.(waiters := s.waiters[id := w])
  }

  predicate Can(s: System, a: Action) {
    match a
    case Update(frame) => frame != []
    case Close => true
    case Sends(w) => WriterCan(s, w)
    case Waits(id, w) => WaiterCan(s, id, w)
  }

  function Step(s: System, a: Action): System
    requires Can(s, a)
  {
    match a
    case Update(frame) =>
      if s.feed.closed then s else s.(feed := Replace(s.feed, frame), log := s.log.(frames := s.log.frames + [frame]))
    case Close => s.(feed := CloseFeed(s.feed))
    case Sends(w) => WriterStep(s, w)
    case Waits(id, w) => WaiterStep(s, id, w)
  }

  // ----- The invariant -----

  ghost predicate FeedOk(f: Feed) {
    && f.delivered <= f.version && 1 <= f.version && f.frame != []
    && (f.closed <==> !CanClose(f, f.channel)) && !f.closedTwice
    && (forall c | c in f.closedChannels :: c <= f.channel)
    && (forall c: nat | c < f.channel :: c in f.closedChannels)
  }

  ghost predicate LogOk(s: System) {
    && |s.log.frames| == s.feed.version >= 1 && s.log.frames[s.feed.version - 1] == s.feed.frame
    && (forall v | v in s.log.complete :: 1 <= v <= s.feed.version && s.log.complete[v] == s.log.frames[v - 1])
    && (s.feed.delivered > 0 ==> s.feed.delivered in s.log.complete)
  }

  ghost predicate WriterOk(s: System) {
    match s.writer
    case Writing(version, pushed, rest) =>
      && 1 <= version <= s.feed.version && version <= |s.log.frames| && pushed + rest == s.log.frames[version - 1]
      && rest != []
      && (version < s.feed.version ==> s.feed.updated)
    case Pushed(version) => version in s.log.complete && (version < s.feed.version ==> s.feed.updated)
    case Idle(version) =>
      && (version < s.feed.version ==> s.feed.updated)
      && (s.feed.closed || version <= s.feed.delivered)
    case _ => true
  }

  /** A blocked waiter's channel is closed, or it is the current one, the feed is
      open and the wanted version has not been delivered. */
  ghost predicate WaiterOk(f: Feed, w: Waiter) {
    && 1 <= w.version <= f.version
    && (w.at.Succeeded? ==> w.version <= f.delivered)
    && (w.at.FoundClosed? ==> f.closed)
    && (w.at.Blocked? ==>
          w.at.channel in f.closedChannels || (w.at.channel == f.channel && !f.closed && f.delivered < w.version))
  }

  ghost predicate Inv(s: System) {
    && FeedOk(s.feed) && LogOk(s) && WriterOk(s)
    && forall id | id in s.waiters :: WaiterOk(s.feed, s.waiters[id])
  }

  lemma StartInv(frame: Frame)
    requires frame != []
    ensures Inv(Start(frame))
  {
  }

  lemma WriterKeeps(s: System, a: WriterAction)
    requires Inv(s) && WriterCan(s, a)
    ensures Inv(WriterStep(s, a))
  {
    if a.Push? {
      var pushed, rest := s.writer.pushed + s.writer.rest[..a.n], s.writer.rest[a.n..];
      assert pushed + rest == s.writer.pushed + s.writer.rest;
      assert rest == [] ==> pushed + rest == pushed;
    }
  }

  lemma StepKeeps(s: System, a: Action)
    requires Inv(s) && Can(s, a)
    ensures Inv(Step(s, a))
  {
    if a.Sends? {
      WriterKeeps(s, a.w);
    }
  }

  /** A run takes enabled actions only. */
  predicate Enabled(s: System, actions: seq<Action>)
    decreases |actions|
  {
    actions == [] ||
    (Can(s, actions[0]) && Enabled(Step(s, actions[0]), actions[1..]))
  }

  function Run(s: System, actions: seq<Action>): System
    requires Enabled(s, actions)
    decreases |actions|
  {
    if actions == [] then s else Run(Step(s, actions[0]), actions[1..])
  }

  lemma {:induction false} RunKeeps(s: System, actions: seq<Action>)
    requires Inv(s) && Enabled(s, actions)
    ensures Inv(Run(s, actions))
    ensures Run(s, actions).feed.delivered >= s.feed.delivered && s.log.frames <= Run(s, actions).log.frames
    decreases |actions|
  {
    if actions != [] {
      StepKeeps(s, actions[0]);
      RunKeeps(Step(s, actions[0]), actions[1..]);
    }
  }

  // ----- What waiters can rely on -----

  /** Success means that a version at least as new was written completely, byte for
      byte as it was given. */
  lemma SuccessMeansWritten(frame: Frame, actions: seq<Action>, id: nat)
    requires frame != [] && Enabled(Start(frame), actions)
    requires id in Run(Start(frame), actions).waiters && Run(Start(frame), actions).waiters[id].at.Succeeded?
    ensures var s := Run(Start(frame), actions);
            exists v | v in s.log.complete ::
              1 <= s.waiters[id].version <= v <= |s.log.frames| && s.log.complete[v] == s.log.frames[v - 1]
  {
    StartInv(frame);
    RunKeeps(Start(frame), actions);
    var s := Run(Start(frame), actions);
    assert WaiterOk(s.feed, s.waiters[id]);
    assert s.feed.delivered in s.log.complete;
  }

  /** No wake-up is lost: a blocked waiter that has nothing to wait for can wake. */
  lemma NoLostWakeup(frame: Frame, actions: seq<Action>, id: nat)
    requires frame != [] && Enabled(Start(frame), actions)
    requires id in Run(Start(frame), actions).waiters && Run(Start(frame), actions).waiters[id].at.Blocked?
    ensures var s := Run(Start(frame), actions);
            (s.feed.closed || s.feed.delivered >= s.waiters[id].version ==> Can(s, Waits(id, Wake)))
            && (!Can(s, Waits(id, Wake)) ==> s.waiters[id].at.channel == s.feed.channel)
  {
    StartInv(frame);
    RunKeeps(Start(frame), actions);
    var s := Run(Start(frame), actions);
    assert WaiterOk(s.feed, s.waiters[id]);
  }

  /** A waiter that has nothing more to wait for learns it when it wakes and looks again:
      that its version was delivered, or that the feed was closed before it was. */
  lemma WaiterLearns(frame: Frame, actions: seq<Action>, id: nat)
    requires frame != [] && Enabled(Start(frame), actions)
    requires id in Run(Start(frame), actions).waiters && Run(Start(frame), actions).waiters[id].at.Blocked?
    ensures var s := Run(Start(frame), actions);
            var served, look := s.feed.delivered >= s.waiters[id].version, [Waits(id, Wake), Waits(id, Check)];
            s.feed.closed || served ==>
              && Enabled(s, look) && id in Run(s, look).waiters && Run(s, look).feed == s.feed
              && Run(s, look).waiters[id].at == if served then Succeeded else FoundClosed
  {
    NoLostWakeup(frame, actions, id);
    var s := Run(Start(frame), actions);
    if s.feed.closed || s.feed.delivered >= s.waiters[id].version {
      var s1 := Step(s, Waits(id, Wake));
      var look := [Waits(id, Wake), Waits(id, Check)];
      assert look[1..] == [Waits(id, Check)] && look[1..][1..] == [];
      assert Run(s, look) == Run(s1, look[1..]) == Run(Step(s1, Waits(id, Check)), []);
    }
  }

  /** An update of an open feed takes over the very frame under the next version; a
      closed feed takes over nothing. */
  lemma UpdateTakesFrame(s: System, frame: Frame)
    requires Inv(s) && frame != []
    ensures var u := Step(s, Update(frame));
            && (s.feed.closed ==> u == s)
            && (!s.feed.closed ==>
                  && u.feed.frame == frame && u.feed.version == s.feed.version + 1 && u.feed.updated
                  && u.log.frames == s.log.frames + [frame] && u.feed.delivered == s.feed.delivered)
  {
  }

  /** No channel is closed twice, in whatever order deliveries and Close come; and
      an idle writer that is behind has a wake-up pending. */
  lemma ChannelsCloseOnce(frame: Frame, actions: seq<Action>)
    requires frame != [] && Enabled(Start(frame), actions)
    ensures var s := Run(Start(frame), actions);
            && !s.feed.closedTwice && (s.feed.closed <==> !CanClose(s.feed, s.feed.channel))
            && (s.writer.Idle? && s.writer.version < s.feed.version ==> Can(s, Sends(SeeUpdate)))
  {
    StartInv(frame);
    RunKeeps(Start(frame), actions);
  }

  /** One undisturbed turn of the writer serves every blocked waiter. */
  lemma TurnServesWaiter(s: System, id: nat)
    requires Inv(s) && s.writer.Ready? && !s.feed.closed
    requires id in s.waiters && s.waiters[id].at.Blocked?
    ensures var turn := [Sends(Snapshot), Sends(Push(|s.feed.frame|)), Sends(Mark), Waits(id, Wake), Waits(id, Check)];
            Enabled(s, turn) && id in Run(s, turn).waiters && Run(s, turn).waiters[id].at.Succeeded?
  {
    var s1 := Step(s, Sends(Snapshot));
    StepKeeps(s, Sends(Snapshot));
    var s2 := Step(s1, Sends(Push(|s.feed.frame|)));
    StepKeeps(s1, Sends(Push(|s.feed.frame|)));
    assert s.feed.frame[|s.feed.frame|..] == [];
    var s3 := Step(s2, Sends(Mark));
    StepKeeps(s2, Sends(Mark));
    assert WaiterOk(s.feed, s.waiters[id]);
    var s4 := Step(s3, Waits(id, Wake));
    var s5 := Step(s4, Waits(id, Check));
    TurnRuns(s, s1, s2, s3, s4, s5, Sends(Snapshot), Sends(Push(|s.feed.frame|)), Sends(Mark), Waits(id, Wake),
             Waits(id, Check));
  }

  lemma TurnRuns(s: System, s1: System, s2: System, s3: System, s4: System, s5: System, a: Action, b: Action, c: Action,
                 d: Action, e: Action)
    requires Can(s, a) && s1 == Step(s, a) && Can(s1, b) && s2 == Step(s1, b) && Can(s2, c) && s3 == Step(s2, c)
    requires Can(s3, d) && s4 == Step(s3, d) && Can(s4, e) && s5 == Step(s4, e)
    ensures Enabled(s, [a, b, c, d, e]) && Run(s, [a, b, c, d, e]) == s5
  {
    assert [a, b, c, d, e][1..] == [b, c, d, e] && [b, c, d, e][1..] == [c, d, e] && [c, d, e][1..] == [d, e];
    assert [d, e][1..] == [e];
    assert Enabled(s5, []) && Enabled(s4, [e]) && Enabled(s3, [d, e]) && Enabled(s2, [c, d, e]);
    assert Enabled(s1, [b, c, d, e]);
    assert Run(s4, [e]) == s5 && Run(s3, [d, e]) == s5 && Run(s2, [c, d, e]) == s5 && Run(s1, [b, c, d, e]) == s5;
  }
}
