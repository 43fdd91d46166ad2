/** Sequence numbers modulo 2^16 (section 5.1 of RFC 3550) and the choice of the
    next packet from a speaker's queue. A distance of 2^15 or more is late. */
module SpeakerQueue {
  const SequenceRange := 0x1_0000
  const HalfRange := 0x8000

  type Sequence = n: nat | n < SequenceRange

  /** An accepted packet is never empty: its first byte is the table-of-contents byte. */
  datatype Packet = Packet(ssrc: nat, sequence: Sequence, toc: nat, rest: seq<nat>)

  function Distance(sequence: Sequence, expected: Sequence): Sequence {
    (sequence - expected) % SequenceRange
  }

  lemma GapIsZero(sequence: Sequence, expected: Sequence)
    ensures Distance(sequence, expected) == 0 <==> sequence == expected
  {
  }

  predicate Late(p: Packet, expected: Sequence) { Distance(p.sequence, expected) >= HalfRange }

  function Ahead(expected: Sequence, n: nat): nat { (expected + n) % 65536 }

  /** A packet is late unless it is the expected one or one of the 32767 after it. */
  lemma LateExactly(p: Packet, expected: Sequence)
    ensures !Late(p, expected) <==> exists n :: 0 <= n < 32768 && p.sequence == Ahead(expected, n)
  {
    if !Late(p, expected) {
      assert p.sequence == Ahead(expected, Distance(p.sequence, expected));
    } else {
      forall n: nat | n < 32768 ensures p.sequence != Ahead(expected, n) {
      }
    }
  }

  /** The first packet in the queue with the smallest forward distance. */
  predicate Nearest(queue: seq<Packet>, expected: Sequence, best: nat) {
    && best < |queue| && !Late(queue[best], expected)
    && (forall i | 0 <= i < |queue| && !Late(queue[i], expected) ::
          Distance(queue[best].sequence, expected) <= Distance(queue[i].sequence, expected))
    && (forall i | 0 <= i < best && !Late(queue[i], expected) ::
          Distance(queue[best].sequence, expected) < Distance(queue[i].sequence, expected))
  }

  /** The forward packets, in order, without the one that is taken. */
  function Waiting(queue: seq<Packet>, expected: Sequence, taken: int): seq<Packet> {
    if queue == [] then []
    else
      var n := |queue| - 1;
      Waiting(queue[..n], expected, taken) + if n == taken || Late(queue[n], expected) then [] else [queue[n]]
  }

  function LateOnes(queue: seq<Packet>, expected: Sequence): seq<Packet> {
    if queue == [] then []
    else
      var n := |queue| - 1;
      LateOnes(queue[..n], expected) + if Late(queue[n], expected) then [queue[n]] else []
  }

  function Taken(queue: seq<Packet>, taken: nat): seq<Packet> {
    if taken < |queue| then [queue[taken]] else []
  }

  /** Every packet waits on, is late, or is the one taken: none is lost or doubled. */
  predicate Accounted(queue: seq<Packet>, expected: Sequence, taken: nat) {
    multiset(queue)
    == multiset(Waiting(queue, expected, taken)) + multiset(LateOnes(queue, expected)) + multiset(Taken(queue, taken))
  }

  lemma {:induction false} PopAccounts(queue: seq<Packet>, expected: Sequence, taken: nat)
    requires taken < |queue| ==> !Late(queue[taken], expected)
    ensures Accounted(queue, expected, taken)
  {
    if queue == [] {
      assert Taken(queue, taken) == [];
    } else {
      var q, p := queue[..|queue| - 1], queue[|queue| - 1];
      PopAccounts(q, expected, taken);
      LastAccounted(q, p, expected, taken);
      assert q + [p] == queue;
    }
  }

  lemma LastAccounted(q: seq<Packet>, p: Packet, expected: Sequence, taken: nat)
    requires Accounted(q, expected, taken) && (|q| == taken ==> !Late(p, expected))
    ensures Accounted(q + [p], expected, taken)
  {
    var late := Late(p, expected);
    LastPacket(q, p, expected, taken);
    OneMore(q, p, Waiting(q, expected, taken), if |q| == taken || late then [] else [p],
            LateOnes(q, expected), if late then [p] else [], Taken(q, taken), if |q| == taken then [p] else []);
  }

  /** Where the last packet of a queue goes. */
  lemma LastPacket(q: seq<Packet>, p: Packet, expected: Sequence, taken: nat)
    ensures Waiting(q + [p], expected, taken)
         == Waiting(q, expected, taken) + if |q| == taken || Late(p, expected) then [] else [p]
    ensures LateOnes(q + [p], expected) == LateOnes(q, expected) + if Late(p, expected) then [p] else []
    ensures Taken(q + [p], taken) == Taken(q, taken) + if |q| == taken then [p] else []
  {
    assert (q + [p])[..|q|] == q;
  }

  lemma PopCounts(queue: seq<Packet>, expected: Sequence, taken: nat)
    requires taken < |queue| && !Late(queue[taken], expected)
    ensures |queue| == |Waiting(queue, expected, taken)| + |LateOnes(queue, expected)| + 1
  {
    PopAccounts(queue, expected, taken);
    assert |multiset(queue)| == |queue|;
    assert |multiset(Waiting(queue, expected, taken))| == |Waiting(queue, expected, taken)|;
    assert |multiset(LateOnes(queue, expected))| == |LateOnes(queue, expected)|;
  }

  lemma OneMore(q: seq<Packet>, p: Packet, a: seq<Packet>, x: seq<Packet>, b: seq<Packet>, y: seq<Packet>,
                c: seq<Packet>, z: seq<Packet>)
    requires multiset(q) == multiset(a) + multiset(b) + multiset(c)
    requires multiset(x) + multiset(y) + multiset(z) == multiset{p}
    ensures multiset(q + [p]) == multiset(a + x) + multiset(b + y) + multiset(c + z)
  {
  }

  /** The places of the packets that wait on: all others but the late, in order. */
  function Places(queue: seq<Packet>, expected: Sequence, taken: int): seq<nat> {
    if queue == [] then []
    else
      var n := |queue| - 1;
      Places(queue[..n], expected, taken) + if n == taken || Late(queue[n], expected) then [] else [n]
  }

  lemma {:induction false} WaitingKeepsOrder(queue: seq<Packet>, expected: Sequence, taken: int)
    ensures var places, waiting := Places(queue, expected, taken), Waiting(queue, expected, taken);
            && |places| == |waiting|
            && (forall k | 0 <= k < |places| :: places[k] < |queue| && waiting[k] == queue[places[k]])
            && (forall k, l | 0 <= k < l < |places| :: places[k] < places[l])
            && (forall i | 0 <= i < |queue| :: i in places <==> i != taken && !Late(queue[i], expected))
  {
    if queue != [] {
      WaitingKeepsOrder(queue[..|queue| - 1], expected, taken);
    }
  }

  /** One step further through a queue that is compacted in place. */
  lemma WaitingNext(queue: seq<Packet>, expected: Sequence, taken: nat, index: nat)
    requires index < |queue|
    ensures Waiting(queue[..index + 1], expected, taken)
         == Waiting(queue[..index], expected, taken)
            + if index == taken || Late(queue[index], expected) then [] else [queue[index]]
  {
    assert queue[..index + 1][..index] == queue[..index];
  }

  lemma SuffixNext(queue: seq<Packet>, before: seq<Packet>, index: nat)
    requires index < |queue| == |before| && queue[index..] == before[index..]
    ensures queue[index] == before[index] && queue[index + 1..] == before[index + 1..]
  {
    assert queue[index..][0] == before[index..][0];
    assert queue[index..][1..] == queue[index + 1..] && before[index..][1..] == before[index + 1..];
  }

  /** Overwriting an earlier place leaves the rest of the queue alone. */
  lemma Overwritten(queue: seq<Packet>, to: nat, from: nat)
    requires to <= from < |queue|
    ensures var q := queue[to := queue[from]];
            |q| == |queue| && q[..to + 1] == queue[..to] + [queue[from]] && q[from + 1..] == queue[from + 1..]
  {
  }

  lemma RemainderOf(q: int, r: int)
    requires 0 <= r < SequenceRange
    ensures (q * SequenceRange + r) % SequenceRange == r
  {
  }

  /** Numbers on the unwrapped line: a forward packet sits `Distance` past the
      expected position, whatever wraps lie between. */
  lemma UnwrapsForward(position: int, sequence: Sequence, expected: Sequence)
    requires position % SequenceRange == expected
    ensures (position + Distance(sequence, expected)) % SequenceRange == sequence
  {
    var q := position / SequenceRange;
    assert position == q * SequenceRange + expected;
    if sequence >= expected {
      assert Distance(sequence, expected) == sequence - expected;
      RemainderOf(q, sequence);
    } else {
      assert Distance(sequence, expected) == sequence - expected + SequenceRange;
      RemainderOf(q + 1, sequence);
    }
  }

  lemma NextRemainder(a: int)
    ensures (a + 1) % SequenceRange == (a % SequenceRange + 1) % SequenceRange
  {
    var q, r := a / SequenceRange, a % SequenceRange;
    if r + 1 < SequenceRange {
      RemainderOf(q, r + 1);
    } else {
      RemainderOf(q + 1, 0);
    }
  }
}
