/** What the packets given to one speaker's decoder say about playout: between
    decoder resets the missing and the decoded packets make up the advance on the
    unwrapped line of sequence numbers. */
module SpeakerHistory {
  import opened SpeakerQueue

  /** One packet given to the decoder, as its call number `call`: whether it was decoded,
      and the count of missing packets by then. The samples made for the gap before it are
      the ones from `from` to `at`, its own the ones from `at` to `to`. */
  datatype Try = Try(packet: Packet, decoded: bool, missing: nat, call: nat, from: nat, at: nat, to: nat)

  function After(sequence: Sequence): Sequence {
    (sequence + 1) % SequenceRange
  }

  /** The gap that is counted before a packet: only a decoded predecessor tells what
      was expected. */
  function Gap(before: Try, packet: Packet): nat {
    if before.decoded then Distance(packet.sequence, After(before.packet.sequence)) else 0
  }

  predicate Succeeds(before: Try, next: Try) {
    && next.missing == before.missing + Gap(before, next.packet)
    && (before.decoded ==> !Late(next.packet, After(before.packet.sequence)))
    && next.from == before.to && (next.from < next.at <==> Gap(before, next.packet) > 0)
  }

  predicate HistoryOk(tried: seq<Try>) {
    && (tried != [] ==> tried[0].missing == 0 && tried[0].from == tried[0].at == 0)
    && forall k | 0 < k < |tried| :: Succeeds(tried[k - 1], tried[k])
  }

  lemma HistoryGrows(tried: seq<Try>, next: Try)
    requires HistoryOk(tried) && (if tried == [] then next.missing == 0 && next.from == next.at == 0
                                   else Succeeds(tried[|tried| - 1], next))
    ensures HistoryOk(tried + [next])
  {
  }

  // ----- Where the received packets are -----

  function PacketsOf(tried: seq<Try>): (packets: seq<Packet>)
    ensures |packets| == |tried| && forall k | 0 <= k < |tried| :: packets[k] == tried[k].packet
  {
    seq(|tried|, k requires 0 <= k < |tried| => tried[k].packet)
  }

  /** The packets in these three places, each as often as it is there. */
  function Total(queue: seq<Packet>, dropped: seq<Packet>, tried: seq<Try>): multiset<Packet> {
    multiset(queue) + multiset(dropped) + multiset(PacketsOf(tried))
  }

  lemma EnqueueKnown(queue: seq<Packet>, dropped: seq<Packet>, tried: seq<Try>, packet: Packet, excess: nat)
    requires excess <= |queue|
    ensures Total(queue[excess..] + [packet], dropped + queue[..excess], tried)
         == Total(queue, dropped, tried) + multiset{packet}
  {
    assert queue == queue[..excess] + queue[excess..];
  }

  /** What a pop throws away. */
  function Lost(queue: seq<Packet>, expected: Sequence, hasSequence: bool): seq<Packet> {
    if hasSequence then LateOnes(queue, expected) else []
  }

  /** The packet is taken from the queue and what is late is thrown away. */
  ghost predicate Popped(queue: seq<Packet>, expected: Sequence, hasSequence: bool, packet: Packet, left: seq<Packet>) {
    if hasSequence
    then exists best: nat ::
           Nearest(queue, expected, best) && packet == queue[best] && left == Waiting(queue, expected, best)
    else [packet] + left == queue
  }

  /** The first packet when nothing is expected, and otherwise one at the smallest distance
      ahead. */
  lemma PoppedSpelled(queue: seq<Packet>, expected: Sequence, hasSequence: bool, packet: Packet, left: seq<Packet>)
    requires Popped(queue, expected, hasSequence, packet, left)
    ensures !hasSequence ==> [packet] + left == queue
    ensures hasSequence ==> packet in queue && !Late(packet, expected)
    ensures hasSequence ==> forall p | p in queue && !Late(p, expected) ::
              Distance(packet.sequence, expected) <= Distance(p.sequence, expected)
  {
    if hasSequence {
      var best: nat :| && Nearest(queue, expected, best) && packet == queue[best]
                       && left == Waiting(queue, expected, best);
      forall p | p in queue && !Late(p, expected)
        ensures Distance(packet.sequence, expected) <= Distance(p.sequence, expected)
      {
        var i :| 0 <= i < |queue| && queue[i] == p;
      }
    }
  }

  lemma PoppedKnown(queue: seq<Packet>, dropped: seq<Packet>, tried: seq<Try>, expected: Sequence, hasSequence: bool,
                    left: seq<Packet>, next: Try)
    requires Popped(queue, expected, hasSequence, next.packet, left)
    ensures Total(left, dropped + Lost(queue, expected, hasSequence), tried + [next]) == Total(queue, dropped, tried)
  {
    assert PacketsOf(tried + [next]) == PacketsOf(tried) + [next.packet];
    if hasSequence {
      var best: nat :| && Nearest(queue, expected, best) && next.packet == queue[best]
                       && left == Waiting(queue, expected, best);
      PopAccounts(queue, expected, best);
    }
  }

  lemma AllLateKnown(queue: seq<Packet>, dropped: seq<Packet>, tried: seq<Try>, expected: Sequence)
    requires forall p | p in queue :: Late(p, expected)
    ensures Total([], dropped + LateOnes(queue, expected), tried) == Total(queue, dropped, tried)
  {
    AllLate(queue, expected);
  }

  lemma {:induction false} AllLate(queue: seq<Packet>, expected: Sequence)
    requires forall p | p in queue :: Late(p, expected)
    ensures LateOnes(queue, expected) == queue
  {
    if queue != [] {
      AllLate(queue[..|queue| - 1], expected);
      assert queue == queue[..|queue| - 1] + [queue[|queue| - 1]];
    }
  }

  // ----- Numbering a stretch of the history -----

  /** From `start` on, as far as `line` goes, every packet was decoded. */
  predicate Unbroken(tried: seq<Try>, start: nat, line: seq<int>) {
    start + |line| <= |tried| && forall k | start <= k < start + |line| :: tried[k].decoded
  }

  /** The line numbers the packets from `start` on without wrapping: each number has
      the packet's sequence as its remainder and lies less than half the range past
      the number expected. */
  predicate Unwraps(tried: seq<Try>, start: nat, line: seq<int>) {
    && start + |line| <= |tried|
    && (forall k | 0 <= k < |line| :: line[k] % SequenceRange == tried[start + k].packet.sequence)
    && (forall k | 0 < k < |line| :: line[k - 1] < line[k] <= line[k - 1] + HalfRange)
  }

  lemma StepIsGap(before: Try, next: Try, a: int, b: int)
    requires before.decoded && Succeeds(before, next)
    requires a % SequenceRange == before.packet.sequence && b % SequenceRange == next.packet.sequence
    requires a < b <= a + HalfRange
    ensures b - a == next.missing - before.missing + 1
  {
    var distance := Distance(next.packet.sequence, After(before.packet.sequence));
    assert (b - (a + 1)) % SequenceRange == distance;
  }

  /** Whatever the history, over any unbroken stretch and any way to number it, the
      packets counted missing and the packets decoded are together the advance. */
  lemma {:induction false} MissingPlusDecodedIsAdvance(tried: seq<Try>, start: nat, line: seq<int>)
    requires HistoryOk(tried) && line != [] && Unbroken(tried, start, line) && Unwraps(tried, start, line)
    ensures line[|line| - 1] + 1 - line[0] == (tried[start + |line| - 1].missing - tried[start].missing) + |line|
    decreases |line|
  {
    if |line| > 1 {
      var n := |line| - 1;
      MissingPlusDecodedIsAdvance(tried, start, line[..n]);
      StepIsGap(tried[start + n - 1], tried[start + n], line[n - 1], line[n]);
    }
  }

  /** Every unbroken stretch can be numbered, in one way from a given first number. */
  lemma {:induction false} LineExists(tried: seq<Try>, start: nat, length: nat) returns (line: seq<int>)
    requires HistoryOk(tried) && length > 0 && start + length <= |tried|
    requires forall k | start <= k < start + length :: tried[k].decoded
    ensures |line| == length && line[0] == tried[start].packet.sequence
    ensures Unbroken(tried, start, line) && Unwraps(tried, start, line)
    decreases length
  {
    if length == 1 {
      return [tried[start].packet.sequence];
    }
    line := LineExists(tried, start, length - 1);
    var next := NextOnLine(tried[start + length - 2], tried[start + length - 1], line[length - 2]);
    line := line + [next];
  }

  lemma NextOnLine(before: Try, next: Try, a: int) returns (b: int)
    requires before.decoded && Succeeds(before, next) && a % SequenceRange == before.packet.sequence
    ensures b % SequenceRange == next.packet.sequence && a < b <= a + HalfRange
  {
    var expected := After(before.packet.sequence);
    NextRemainder(a);
    UnwrapsForward(a + 1, next.packet.sequence, expected);
    b := a + 1 + Distance(next.packet.sequence, expected);
  }

  lemma {:induction false} SameNumber(tried: seq<Try>, start: nat, a: seq<int>, b: seq<int>, k: nat)
    requires Unwraps(tried, start, a) && Unwraps(tried, start, b) && k < |a| == |b| && a[0] == b[0]
    ensures a[k] == b[k]
    decreases k
  {
    if k > 0 {
      SameNumber(tried, start, a, b, k - 1);
      SameRemainder(a[k], b[k]);
    }
  }

  lemma LineIsUnique(tried: seq<Try>, start: nat, a: seq<int>, b: seq<int>)
    requires Unwraps(tried, start, a) && Unwraps(tried, start, b) && |a| == |b| && (a != [] ==> a[0] == b[0])
    ensures a == b
  {
    forall k | 0 <= k < |a| ensures a[k] == b[k] {
      SameNumber(tried, start, a, b, k);
    }
  }

  lemma SameRemainder(a: int, b: int)
    requires a % SequenceRange == b % SequenceRange && -SequenceRange < a - b < SequenceRange
    ensures a == b
  {
  }
}
