/** The image source itself: each method is one critical section, except a turn of the
    writer, which has two and lets other callers in between. Channels are numbered; the
    numbers of the closed ones are kept. */
module ImageSource {
  import opened ImageFeed

  /** What one call to write on the connection reports. */
  datatype Written = WriteError | Bytes(n: int)

  /** A call that may come in while the writer does not hold the lock. */
  datatype Call = Replacing(frame: Frame) | Closing

  function AfterCall(f: Feed, c: Call): Feed {
    match c
    case Replacing(frame) => if frame == [] || f.closed then f else Replace(f, frame)
    case Closing => CloseFeed(f)
  }

  function AfterCalls(f: Feed, calls: seq<Call>): Feed {
    if calls == [] then f else AfterCall(AfterCalls(f, calls[..|calls| - 1]), calls[|calls| - 1])
  }

  /** None of them marks a version as delivered. */
  lemma {:induction false} CallsDeliverNothing(f: Feed, calls: seq<Call>)
    ensures AfterCalls(f, calls).delivered == f.delivered && AfterCalls(f, calls).version >= f.version
  {
    if calls != [] {
      CallsDeliverNothing(f, calls[..|calls| - 1]);
    }
  }

  class Source {
    var frame: Frame
    var version: nat
    var delivered: nat
    var deliveredCh: nat
    var closedChannels: set<nat>
    var closed: bool
    var updated: bool
    ghost var closedTwice: bool

    constructor (initial: Frame)
      requires initial != []
      ensures View() == Start(initial).feed && Valid()
    {
      frame, version, delivered, deliveredCh, closedChannels, closed, updated := initial, 1, 0, 0, {}, false, false;
      closedTwice := false;
    }

    ghost function View(): Feed
      reads this
    {
      Feed(frame, version, delivered, deliveredCh, closedChannels, closed, updated, closedTwice)
    }

    ghost predicate Valid()
      reads this
    {
      FeedOk(View())
    }

    /** Closing a channel a second time would be a run-time failure. */
    method CloseCh(channel: nat)
      requires CanClose(View(), channel)
      modifies this`closedChannels
      ensures View() == CloseChannel(old(View()), channel)
    {
      closedChannels := closedChannels + {channel};
    }

    method Update(replacement: Frame) returns (ok: bool, at: nat)
      requires Valid()
      modifies this
      ensures Valid()
      ensures ok <==> replacement != [] && !old(closed)
      ensures ok ==> View() == Replace(old(View()), replacement) && at == version
      ensures ok ==> frame == replacement && version == old(version) + 1 && updated && delivered == old(delivered)
      ensures !ok ==> View() == old(View())
    {
      at := 0;
      if replacement == [] || closed {
        return false, 0;
      }
      frame := replacement;
      version := version + 1;
      at := version;
      updated := true;
      ok := true;
    }

    /** One round of waiting for a version. */
    method CheckDelivered(wanted: nat) returns (r: Waiting)
      ensures r == CheckOnce(View(), wanted)
      ensures r.Succeeded? <==> delivered >= wanted
      ensures r.FoundClosed? <==> closed && delivered < wanted
      ensures r.Blocked? ==> r.channel == deliveredCh
    {
      if delivered >= wanted {
        return Succeeded;
      }
      var wasClosed, channel := closed, deliveredCh;
      if wasClosed {
        return FoundClosed;
      }
      r := Blocked(channel);
    }

    method MarkDelivered(written: nat)
      requires Valid() && written <= version
      modifies this
      ensures Valid() && View() == ImageFeed.MarkDelivered(old(View()), written)
      ensures delivered == if !closed && written > old(delivered) then written else old(delivered)
      ensures delivered != old(delivered) ==> old(deliveredCh) in closedChannels && deliveredCh !in closedChannels
      ensures delivered == old(delivered) ==> View() == old(View())
    {
      if closed || written <= delivered {
        return;
      }
      delivered := written;
      CloseCh(deliveredCh);
      deliveredCh := deliveredCh + 1;
    }

    method Close()
      requires Valid()
      modifies this`closed, this`closedChannels
      ensures Valid() && View() == CloseFeed(old(View()))
      ensures closed && deliveredCh in closedChannels
    {
      if closed {
        return;
      }
      closed := true;
      CloseCh(deliveredCh);
    }

    /** Writes a whole frame: success means every byte went out once and in order,
        however the connection split them. A connection takes at most what it is given. */
    method WriteFull(whole: Frame, connection: nat -> Written) returns (ok: bool, wire: Frame, calls: nat)
      requires forall k, n | connection(k) == Bytes(n) :: n <= |whole|
      ensures ok ==> wire == whole
      ensures wire <= whole && calls <= |whole|
      ensures !ok ==> calls > 0 && (connection(calls - 1).WriteError? || connection(calls - 1).n <= 0)
      ensures ok ==> forall k | 0 <= k < calls :: connection(k).Bytes? && connection(k).n > 0
    {
      var rest := whole;
      wire, calls := [], 0;
      while |rest| > 0
        invariant wire + rest == whole && calls <= |wire|
        invariant forall k | 0 <= k < calls :: connection(k).Bytes? && connection(k).n > 0
      {
        var written := connection(calls);
        calls := calls + 1;
        if written.WriteError? || written.n <= 0 {
          return false, wire, calls;
        }
        var n := if written.n <= |rest| then written.n else |rest|;
        assert rest == rest[..n] + rest[n..];
        wire, rest := wire + rest[..n], rest[n..];
      }
      ok := true;
    }

    method LetIn(calls: seq<Call>)
      requires Valid()
      modifies this
      ensures Valid() && View() == AfterCalls(old(View()), calls)
    {
      assert calls[..|calls|] == calls;
      for k := 0 to |calls|
        invariant Valid() && View() == AfterCalls(old(View()), calls[..k])
      {
        assert calls[..k + 1][..k] == calls[..k];
        if calls[k].Closing? {
          Close();
        } else {
          var ok, at := Update(calls[k].frame);
        }
      }
    }

    /** What the writer takes along when it lets go of the lock. */
    method CopyOut() returns (copy: Frame, at: nat, stop: bool)
      ensures copy == frame && at == version && stop == closed
    {
      copy, at, stop := frame, version, closed;
    }

    /** One turn of the writer: a frame is copied out, written without the lock held
        while other calls come in, and marked. What came in is left to the next turn:
        the version marked is the one whose bytes went out. */
    method WriteTurn(connection: nat -> Written, meanwhile: seq<Call>) returns (goOn: bool, wire: Frame)
      requires Valid() && forall k, n | connection(k) == Bytes(n) :: n <= |frame|
      modifies this
      ensures Valid() && delivered <= old(version)
      ensures goOn ==> wire == old(frame) && !old(closed)
      ensures goOn ==> View() == ImageFeed.MarkDelivered(AfterCalls(old(View()), meanwhile), old(version))
      ensures goOn && !closed ==> delivered == old(version)
      ensures !goOn ==> View() == if old(closed) then old(View()) else AfterCalls(old(View()), meanwhile)
    {
      var copy, at, stop := CopyOut();
      if stop {
        return false, [];
      }
      var calls;
      goOn, wire, calls := WriteFull(copy, connection);
      CallsDeliverNothing(View(), meanwhile);
      LetIn(meanwhile);
      if goOn {
        MarkDelivered(at);
      }
    }
  }
}
