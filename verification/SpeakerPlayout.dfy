/** Playout of one speaker: packet choice, bounded loss concealment and the PCM
    buffer, over a decoder that may answer anything. */
module SpeakerPlayout {
  import opened SpeakerHistory
  import opened SpeakerQueue

  const FrameSamples := 960
  const Channels := 2
  const PcmFrame := FrameSamples * Channels
  const MaxOpus := 5760 * Channels
  const QueueLimit := 100
  const ConcealFrames := 5
  const ConcealPackets := 5

  const BufferLimit := PcmFrame - 2 + ConcealFrames * PcmFrame + MaxOpus - PcmFrame

  // ----- The decoder's answer -----

  const Int64Limit := 0x8000_0000_0000_0000

  type Int64 = n: int | -Int64Limit <= n < Int64Limit

  /** A 64-bit product by the number of channels, which wraps. */
  function Doubled(n: Int64): Int64 {
    (n * Channels + Int64Limit) % (2 * Int64Limit) - Int64Limit
  }

  /** The check made before the decoded samples are sliced. */
  predicate Usable(n: Int64) { n > 0 && !(Doubled(n) > MaxOpus) }

  /** The check admits exactly the counts that fit the buffer, except that from
      2^62 on the product wraps and every count gets through. */
  lemma UsableExactly(n: Int64)
    ensures Usable(n) <==> 0 < n <= 5760 || n >= Int64Limit / 2
    ensures n >= Int64Limit / 2 ==> Doubled(n) < 0
  {
  }

  /** One answer: a failure, or a count with the buffer that was filled. */
  datatype Decoded = Failed | Filled(perChannel: Int64, buffer: Buffer)

  /** An answer for a received packet: there a count from 2^62 on, which the check lets
      through, would end the program when the buffer is cut. */
  type Played = d: Decoded | d.Filled? ==> d.perChannel < Int64Limit / 2 witness Failed

  type Buffer = b: seq<int> | |b| == MaxOpus witness seq(MaxOpus, _ => 0)

  /** How many of these answers could not be used. */
  function BadAnswers(answers: nat -> Decoded, from: nat, end: nat): nat
    decreases end
  {
    if end <= from then 0 else BadAnswers(answers, from, end - 1) + if Good(answers(end - 1)) then 0 else 1
  }

  /** What one packet of a gap comes to, with room for `room` samples per channel: what
      the decoder makes up, or silence. */
  function LossSound(d: Decoded, room: nat): seq<int>
    requires room <= 4800
  {
    if d.Filled? && (0 < d.perChannel <= 5760 || d.perChannel >= 0x4000_0000_0000_0000)
    then d.buffer[..2 * Smaller(d.perChannel, room)]
    else Zeros(2 * Smaller(960, room))
  }

  /** What `n` packets of a gap come to, cut to five frames of 960. */
  function GapSound(answers: nat -> Decoded, from: nat, n: nat): (sound: seq<int>)
    ensures |sound| <= 9600 && |sound| % 2 == 0
  {
    if n == 0 then []
    else
      var earlier := GapSound(answers, from, n - 1);
      earlier + LossSound(answers(from + n - 1), 4800 - |earlier| / 2)
  }

  /** The buffer `pcm` is `base` with the sound of `n` packets of a gap behind it. */
  ghost predicate GapFills(answers: nat -> Decoded, base: seq<int>, from: nat, n: nat, pcm: seq<int>) {
    pcm == base + GapSound(answers, from, n)
  }

  lemma FillsOneMore(answers: nat -> Decoded, base: seq<int>, from: nat, n: nat, pcm: seq<int>, room: nat,
                     more: seq<int>)
    requires GapFills(answers, base, from, n, pcm) && |pcm| == |base| + 2 * (4800 - room) && room <= 4800
    requires more == pcm + LossSound(answers(from + n), room)
    ensures GapFills(answers, base, from, n + 1, more)
  {
  }

  lemma GapDone(answers: nat -> Decoded, base: seq<int>, from: nat, n: nat, limit: nat, pcm: seq<int>)
    requires GapFills(answers, base, from, n, pcm) && n <= limit && (n == limit || |pcm| == |base| + 9600)
    ensures GapFills(answers, base, from, limit, pcm)
  {
    FullGapStays(answers, from, n, limit);
  }

  lemma SilenceDone(base: seq<int>, n: nat, limit: nat, pcm: seq<int>)
    requires pcm == base + Zeros(1920 * Smaller(n, 5)) && n <= limit <= 5 && (n == limit || |pcm| == |base| + 9600)
    ensures pcm == base + Zeros(1920 * limit)
  {
  }

  lemma SilenceFills(base: seq<int>, n: nat, pcm: seq<int>, room: nat, more: seq<int>)
    requires pcm == base + Zeros(1920 * Smaller(n, 5)) && |pcm| == |base| + 2 * (4800 - room) && room <= 4800
    requires more == pcm + Zeros(2 * Smaller(960, room))
    ensures more == base + Zeros(1920 * Smaller(n + 1, 5))
  {
  }

  lemma {:induction false} FullGapStays(answers: nat -> Decoded, from: nat, n: nat, more: nat)
    requires n <= more && (n == more || |GapSound(answers, from, n)| == 9600)
    ensures GapSound(answers, from, more) == GapSound(answers, from, n)
    decreases more
  {
    if n < more {
      FullGapStays(answers, from, n, more - 1);
      assert LossSound(answers(from + more - 1), 0) == [];
    }
  }

  predicate Good(d: Decoded) { d.Filled? && Usable(d.perChannel) }

  function Smaller(a: int, b: int): int { if a < b then a else b }

  function Zeros(n: nat): (z: seq<int>)
    ensures |z| == n
  {
    seq(n, _ => 0)
  }

  datatype Counters = Counters(gaps: nat, missing: nat, late: nat, concealed: nat, decodeErrors: nat, resets: nat)

  /** The sound of a try stands where its record says: the gap first, then the packet. */
  ghost predicate PlayedAt(answers: nat -> Played, t: Try, produced: seq<int>) {
    && t.from <= t.at <= t.to <= |produced|
    && (!t.decoded ==> t.at == t.to)
    && (t.decoded ==> Good(answers(t.call)))
    && (t.decoded ==> produced[t.at..t.to] == PacketSound(answers(t.call)))
  }

  function PacketSound(d: Decoded): seq<int> {
    if d.Filled? && 0 < d.perChannel <= 5760 then d.buffer[..2 * d.perChannel] else []
  }

  /** A usable answer to a packet has 1 to 5760 samples per channel, all of which sound. */
  lemma UsableSounds(d: Played)
    ensures Good(d) ==> d.Filled? && 0 < d.perChannel <= 5760 && PacketSound(d) == d.buffer[..2 * d.perChannel]
    ensures !Good(d) ==> d.Failed? || d.perChannel <= 0 || d.perChannel > 5760
  {
    if d.Filled? {
      UsableExactly(d.perChannel);
    }
  }

  lemma FramesRoundUp(samples: nat)
    ensures var frames := (samples + 959) / 960;
            frames == (2 * samples + 1919) / 1920 && frames * 1920 >= 2 * samples > (frames - 1) * 1920
  {
  }

  /** ... and together they are everything that was produced. */
  ghost predicate AllPlayed(answers: nat -> Played, tried: seq<Try>, produced: seq<int>) {
    && |produced| == (if tried == [] then 0 else tried[|tried| - 1].to)
    && forall k {:trigger PlayedAt(answers, tried[k], produced)} | 0 <= k < |tried| ::
         PlayedAt(answers, tried[k], produced)
  }

  lemma PlayedGrows(answers: nat -> Played, tried: seq<Try>, produced: seq<int>, next: Try, more: seq<int>)
    requires AllPlayed(answers, tried, produced) && produced <= more
    requires PlayedAt(answers, next, more) && next.to == |more|
    ensures AllPlayed(answers, tried + [next], more)
  {
    forall k | 0 <= k < |tried| ensures PlayedAt(answers, tried[k], more) {
      assert PlayedAt(answers, tried[k], produced);
      assert more[tried[k].at..tried[k].to] == produced[tried[k].at..tried[k].to];
    }
  }

  lemma GapThenPacket(answers: nat -> Played, produced: seq<int>, gap: seq<int>, log: Try, more: seq<int>)
    requires more == produced + gap + if log.decoded then PacketSound(answers(log.call)) else []
    requires log.from == |produced| && log.at == |produced| + |gap| && log.to == |more|
    requires log.decoded ==> Good(answers(log.call))
    ensures PlayedAt(answers, log, more) && produced <= more
  {
  }

  lemma {:induction false} BadAnswersJoin(answers: nat -> Decoded, from: nat, middle: nat, end: nat)
    requires from <= middle <= end
    ensures BadAnswers(answers, from, middle) + BadAnswers(answers, middle, end) == BadAnswers(answers, from, end)
    decreases end
  {
    if middle < end {
      BadAnswersJoin(answers, from, middle, end - 1);
    }
  }

  /** A frame carries `count` samples and then silence; it is only cut short when
      nothing is left to play. */
  predicate Emits(frame: seq<int>, count: nat, before: seq<int>, emitted: seq<int>, pcm: seq<int>, queue: seq<Packet>) {
    && 0 < count <= 1920 == |frame| == PcmFrame
    && emitted == before + frame[..count] && frame[count..] == Zeros(PcmFrame - count)
    && (count < PcmFrame ==> pcm == [] && queue == [])
  }

  class Speaker {
    /** The decoder's next answers, to a received packet and to a packet made up for a lost one. */
    const answers: nat -> Played
    const lossAnswers: nat -> Decoded
    const factoryWorks: nat -> bool
    var calls: nat
    var built: nat
    var queue: seq<Packet>
    var pcm: seq<int>
    var expected: Sequence
    var hasSequence: bool
    var lastToc: nat
    var hasLastToc: bool
    var lastSeen: int
    var counters: Counters
    ghost var produced: seq<int>
    ghost var emitted: seq<int>
    ghost var received: multiset<Packet>
    ghost var dropped: seq<Packet>
    ghost var tried: seq<Try>

    constructor (answers: nat -> Played, lossAnswers: nat -> Decoded, factoryWorks: nat -> bool)
      ensures Valid() && queue == [] && pcm == [] && produced == [] && emitted == [] && received == multiset{}
    {
      this.answers, this.lossAnswers, this.factoryWorks := answers, lossAnswers, factoryWorks;
      calls, built, queue, pcm := 0, 0, [], [];
      expected, hasSequence, lastToc, hasLastToc, lastSeen := 0, false, 0, false, 0;
      counters := Counters(0, 0, 0, 0, 0, 0);
      produced, emitted := [], [];
      received, dropped, tried := multiset{}, [], [];
    }

    /** The packets received are the waiting ones, the dropped ones (late, or pushed
        out of a full queue) and those given to the decoder. */
    ghost predicate PacketsKnown()
      reads this`received, this`queue, this`dropped, this`tried
    {
      received == Total(queue, dropped, tried)
    }

    /** The real counter of missing packets and the real expected number are those of
        the history, and the last packet decoded is what makes a number expected. */
    ghost predicate Recorded()
      reads this`tried, this`hasSequence, this`expected, this`counters
    {
      && HistoryOk(tried)
      && (hasSequence <==> tried != [] && tried[|tried| - 1].decoded)
      && (hasSequence ==> expected == After(tried[|tried| - 1].packet.sequence))
      && counters.missing == if tried == [] then 0 else tried[|tried| - 1].missing
    }

    /** Since the last decoder reset, missing packets counted plus packets decoded are
        the advance of the expected number, through any number of wraps. */
    lemma AdvanceIsCounted(start: nat, line: seq<int>)
      requires Valid() && hasSequence && line != [] && start + |line| == |tried|
      requires Unbroken(tried, start, line) && Unwraps(tried, start, line)
      ensures (counters.missing - tried[start].missing) + |line| == line[|line| - 1] + 1 - line[0]
      ensures (line[|line| - 1] + 1) % SequenceRange == expected
    {
      MissingPlusDecodedIsAdvance(tried, start, line);
    }

    ghost predicate Sounded()
      reads this`tried, this`produced
    {
      AllPlayed(answers, tried, produced)
    }

    /** The sound of every gap stands between the sounds of its two packets: behind the
        packet before it, in front of the one after it, and there is some exactly when
        packets are missing. */
    lemma GapStandsBetween(k: nat)
      requires Valid() && 0 < k < |tried| && tried[k - 1].decoded && tried[k].decoded
      ensures var a, b := tried[k - 1], tried[k];
              && a.at <= a.to == b.from <= b.at <= b.to <= |produced|
              && produced[a.at..a.to] == PacketSound(answers(a.call))
              && produced[b.at..b.to] == PacketSound(answers(b.call))
              && (b.from < b.at <==> b.packet.sequence != (a.packet.sequence + 1) % 65536)
    {
      assert Succeeds(tried[k - 1], tried[k]);
      assert PlayedAt(answers, tried[k - 1], produced) && PlayedAt(answers, tried[k], produced);
      GapIsZero(tried[k].packet.sequence, After(tried[k - 1].packet.sequence));
    }

    /** Every sample made is played once, in order, or still buffered. */
    ghost predicate Conserved()
      reads this`produced, this`emitted, this`pcm
    {
      produced == emitted + pcm
    }

    ghost predicate Buffered()
      reads this`queue, this`pcm, this`produced, this`emitted
    {
      |queue| <= QueueLimit && |pcm| % 2 == 0 && |pcm| <= BufferLimit && Conserved()
    }

    ghost predicate Valid()
      reads this
    {
      Buffered() && Recorded() && PacketsKnown() && Sounded()
    }

    method PushBack(packet: Packet, now: int)
      requires |queue| <= QueueLimit
      modifies this`queue, this`lastSeen, this`received, this`dropped
      ensures lastSeen == now && received == old(received) + multiset{packet} && |queue| <= QueueLimit
      ensures var excess := if |old(queue)| < QueueLimit then 0 else 1;
              queue == old(queue)[excess..] + [packet] && dropped == old(dropped) + old(queue)[..excess]
    {
      lastSeen := now;
      var excess := if |queue| >= QueueLimit then |queue| - QueueLimit + 1 else 0;
      received, dropped := received + multiset{packet}, dropped + queue[..excess];
      if excess > 0 {
        queue := queue[excess..];
      }
      queue := queue + [packet];
    }

    /** Appends a packet; a full queue loses its oldest. */
    method Enqueue(packet: Packet, now: int)
      requires Valid()
      modifies this`queue, this`lastSeen, this`received, this`dropped
      ensures Valid() && lastSeen == now && |queue| <= 100
      ensures received == old(received) + multiset{packet}
      ensures var excess := if |old(queue)| < QueueLimit then 0 else 1;
              queue == old(queue)[excess..] + [packet] && dropped == old(dropped) + old(queue)[..excess]
    {
      EnqueueKnown(queue, dropped, tried, packet, if |queue| < QueueLimit then 0 else 1);
      PushBack(packet, now);
    }

    /** The scan for the nearest packet. */
    method FindNearest() returns (best: int, late: nat)
      ensures late == |LateOnes(queue, expected)|
      ensures best < 0 ==> forall i | 0 <= i < |queue| :: Late(queue[i], expected)
      ensures best >= 0 ==> Nearest(queue, expected, best)
    {
      best, late := -1, 0;
      var bestDistance := 0;
      assert queue[..|queue|] == queue;
      for index := 0 to |queue|
        invariant late == |LateOnes(queue[..index], expected)|
        invariant -1 <= best < index
        invariant best < 0 ==> forall i | 0 <= i < index :: Late(queue[i], expected)
        invariant best >= 0 ==>
                  Nearest(queue[..index], expected, best) && bestDistance == Distance(queue[best].sequence, expected)
      {
        assert queue[..index + 1][..index] == queue[..index];
        var distance := Distance(queue[index].sequence, expected);
        if distance >= HalfRange {
          late := late + 1;
        } else if best < 0 || distance < bestDistance {
          best, bestDistance := index, distance;
        }
      }
    }

    /** Compacts the queue over the taken and the late packets, in place. */
    method Compact(taken: nat)
      requires taken < |queue|
      modifies this`queue
      ensures queue == Waiting(old(queue), expected, taken)
    {
      var writeIndex := 0;
      var size := |queue|;
      ghost var before := queue;
      assert before[..size] == before;
      for index := 0 to size
        invariant |queue| == size && writeIndex <= index
        invariant queue[..writeIndex] == Waiting(before[..index], expected, taken)
        invariant queue[index..] == before[index..]
      {
        WaitingNext(before, expected, taken, index);
        SuffixNext(queue, before, index);
        if index == taken || Distance(queue[index].sequence, expected) >= HalfRange {
          continue;
        }
        Overwritten(queue, writeIndex, index);
        queue := queue[writeIndex := queue[index]];
        writeIndex := writeIndex + 1;
      }
      queue := queue[..writeIndex];
    }

    /** Takes the next packet to decode; late ones are thrown away. */
    method Pop() returns (packet: Packet, ok: bool)
      modifies this`queue, this`counters, this`dropped
      ensures counters.missing == old(counters).missing
      ensures old(queue) == [] ==> !ok
      ensures ok ==> Popped(old(queue), expected, hasSequence, packet, queue)
      ensures !ok ==> queue == [] && forall p | p in old(queue) :: Late(p, expected)
      ensures dropped == old(dropped) + Lost(old(queue), expected, hasSequence)
      ensures counters == old(counters).(late := old(counters).late + |Lost(old(queue), expected, hasSequence)|)
      ensures old(queue) != [] && !hasSequence ==> ok
      ensures hasSequence && ok ==> !Late(packet, expected)
      ensures |old(queue)| == |queue| + |Lost(old(queue), expected, hasSequence)| + if ok then 1 else 0
    {
      packet := Packet(0, 0, 0, []);
      if queue == [] {
        return packet, false;
      }
      if !hasSequence {
        packet := queue[0];
        queue := queue[1..];
        return packet, true;
      }
      var best, late := FindNearest();
      if late > 0 {
        counters := counters.(late := counters.late + late);
      }
      if best < 0 {
        AllLate(queue, expected);
        dropped := dropped + LateOnes(queue, expected);
        queue := queue[..0];
        return packet, false;
      }
      PopCounts(queue, expected, best);
      dropped := dropped + LateOnes(queue, expected);
      packet := queue[best];
      Compact(best);
      ok := true;
    }

    method Decode() returns (d: Played)
      modifies this`calls
      ensures calls == old(calls) + 1 && d == answers(old(calls))
    {
      d := answers(calls);
      calls := calls + 1;
    }

    method DecodeLoss() returns (d: Decoded)
      modifies this`calls
      ensures calls == old(calls) + 1 && d == lossAnswers(old(calls))
    {
      d := lossAnswers(calls);
      calls := calls + 1;
    }

    method Append(samples: seq<int>)
      requires Conserved()
      modifies this`pcm, this`produced
      ensures Conserved() && pcm == old(pcm) + samples && produced == old(produced) + samples
    {
      pcm := pcm + samples;
      produced := produced + samples;
    }

    /** One concealment packet: what the decoder makes up, or silence. */
    method ConcealOne(remaining: nat) returns (added: nat)
      requires 0 < remaining <= ConcealFrames * FrameSamples && Conserved()
      modifies this`calls, this`pcm, this`produced, this`counters
      ensures Conserved() && 0 < added <= remaining
      ensures |pcm| == |old(pcm)| + 2 * added && old(pcm) <= pcm
      ensures calls == old(calls) + if hasLastToc then 1 else 0
      ensures !hasLastToc || !Good(lossAnswers(old(calls))) ==>
                added == Smaller(FrameSamples, remaining) && pcm == old(pcm) + Zeros(2 * added)
      ensures hasLastToc ==> pcm == old(pcm) + LossSound(lossAnswers(old(calls)), remaining)
      ensures hasLastToc && Good(lossAnswers(old(calls))) ==>
                && added == Smaller(lossAnswers(old(calls)).perChannel, remaining)
                && pcm == old(pcm) + lossAnswers(old(calls)).buffer[..2 * added]
      ensures var failures := if hasLastToc && !Good(lossAnswers(old(calls))) then 1 else 0;
              counters == old(counters).(decodeErrors := old(counters).decodeErrors + failures)
    {
      var d := Failed;
      if hasLastToc {
        d := DecodeLoss();
        if !Good(d) {
          counters := counters.(decodeErrors := counters.decodeErrors + 1);
        }
      }
      if Good(d) {
        UsableExactly(d.perChannel);
        added := Smaller(d.perChannel, remaining);
        Append(d.buffer[..Channels * added]);
      } else {
        added := Smaller(FrameSamples, remaining);
        Append(Zeros(Channels * added));
      }
    }

    /** What has been made for the gap so far. */
    ghost predicate GapSoFar(base: seq<int>, first: nat, n: nat)
      reads this`pcm, this`calls, this`hasLastToc
    {
      && (hasLastToc ==> calls == first + n && GapFills(lossAnswers, base, first, n, pcm))
      && (!hasLastToc ==> calls == first && pcm == base + Zeros(1920 * Smaller(n, 5)))
    }

    /** The useless answers since call `first` have been counted, and nothing else. */
    ghost predicate ErrorsCounted(before: Counters, first: nat)
      reads this`counters, this`calls
    {
      && first <= calls
      && counters == before.(decodeErrors := before.decodeErrors + BadAnswers(lossAnswers, first, calls))
    }

    /** One more packet of the gap. */
    method ConcealNext(ghost base: seq<int>, ghost first: nat, ghost n: nat, ghost before: Counters, remaining: nat)
      returns (added: nat)
      requires 0 < remaining <= 4800 && Conserved() && GapSoFar(base, first, n) && ErrorsCounted(before, first)
      requires |pcm| == |base| + 2 * (4800 - remaining)
      modifies this`calls, this`pcm, this`produced, this`counters
      ensures Conserved() && GapSoFar(base, first, n + 1) && ErrorsCounted(before, first) && 0 < added <= remaining
      ensures |pcm| == |old(pcm)| + 2 * added
    {
      added := ConcealOne(remaining);
      BadAnswersJoin(lossAnswers, first, old(calls), calls);
      if hasLastToc {
        FillsOneMore(lossAnswers, base, first, n, old(pcm), remaining, pcm);
        assert BadAnswers(lossAnswers, old(calls), old(calls)) == 0;
      } else {
        SilenceFills(base, n, old(pcm), remaining, pcm);
      }
    }

    /** Makes up the packets of a gap as long as there is room. */
    method MakeUp(limit: nat) returns (concealed: nat, ghost n: nat)
      requires 0 < limit <= 5 && Conserved()
      modifies this`calls, this`pcm, this`produced, this`counters
      ensures Conserved() && 0 < concealed <= 4800 && |pcm| == |old(pcm)| + 2 * concealed
      ensures 0 < n <= limit && GapSoFar(old(pcm), old(calls), n) && (n == limit || concealed == 4800)
      ensures ErrorsCounted(old(counters), old(calls))
    {
      var remaining, packetIndex := ConcealFrames * FrameSamples, 0;
      concealed := 0;
      while packetIndex < limit && remaining > 0
        invariant 0 <= packetIndex <= limit && remaining + concealed == 4800 && 0 <= remaining
        invariant Conserved() && |pcm| == |old(pcm)| + 2 * concealed
        invariant packetIndex > 0 ==> concealed > 0
        invariant GapSoFar(old(pcm), old(calls), packetIndex) && ErrorsCounted(old(counters), old(calls))
      {
        var added := ConcealNext(old(pcm), old(calls), packetIndex, old(counters), remaining);
        remaining, concealed := remaining - added, concealed + added;
        packetIndex := packetIndex + 1;
      }
      n := packetIndex;
    }

    /** Fills a gap with at most five packets and five frames of sound. */
    method Conceal(missing: nat)
      requires 0 < missing && Conserved()
      modifies this`calls, this`pcm, this`produced, this`counters
      ensures Conserved() && old(pcm) < pcm && |pcm| <= |old(pcm)| + 5 * 1920
      ensures (|pcm| - |old(pcm)|) % 2 == 0
      ensures !hasLastToc ==> pcm == old(pcm) + Zeros(1920 * Smaller(missing, 5)) && calls == old(calls)
      ensures old(calls) <= calls <= old(calls) + 5
      ensures hasLastToc ==> GapFills(lossAnswers, old(pcm), old(calls), Smaller(missing, 5), pcm)
      ensures hasLastToc ==> calls == old(calls) + Smaller(missing, 5) || |pcm| == |old(pcm)| + 5 * 1920
      ensures counters == old(counters).(
                decodeErrors := old(counters).decodeErrors + BadAnswers(lossAnswers, old(calls), calls),
                concealed := old(counters).concealed + (|pcm| - |old(pcm)| + 1919) / 1920)
    {
      var limit := Smaller(missing, ConcealPackets);
      var concealed;
      ghost var n;
      concealed, n := MakeUp(limit);
      if hasLastToc {
        GapDone(lossAnswers, old(pcm), old(calls), n, limit, pcm);
      } else {
        SilenceDone(old(pcm), n, limit, pcm);
      }
      FramesRoundUp(concealed);
      var frames := (concealed + FrameSamples - 1) / FrameSamples;
      if frames > 0 {
        counters := counters.(concealed := counters.concealed + frames);
      }
    }

    /** Replaces the decoder after a failure, when a new one can be had. */
    method ResetDecoder()
      modifies this`built, this`counters, this`hasSequence, this`hasLastToc
      ensures !hasSequence && !hasLastToc && built == old(built) + 1
      ensures counters == old(counters).(resets := old(counters).resets + if factoryWorks(old(built)) then 1 else 0,
                                         decodeErrors := old(counters).decodeErrors
                                                         + if factoryWorks(old(built)) then 1 else 2)
    {
      counters := counters.(decodeErrors := counters.decodeErrors + 1);
      if factoryWorks(built) {
        counters := counters.(resets := counters.resets + 1);
      } else {
        counters := counters.(decodeErrors := counters.decodeErrors + 1);
      }
      built := built + 1;
      hasSequence, hasLastToc := false, false;
    }

    /** The sound of the gap before a packet: of at most five missing packets, nothing when
        none is missing or nothing was expected. */
    ghost function GapBefore(packet: Packet): (gap: seq<int>)
      reads this`hasSequence, this`expected, this`hasLastToc, this`calls
      ensures |gap| <= 5 * 1920 && |gap| % 2 == 0
    {
      if !hasSequence then []
      else
        var n := Smaller(Distance(packet.sequence, expected), 5);
        if hasLastToc then GapSound(lossAnswers, calls, n) else Zeros(1920 * n)
    }

    /** Counts and fills the gap before a packet. */
    method FillGap(packet: Packet)
      requires Conserved() && hasSequence
      modifies this`calls, this`pcm, this`produced, this`counters
      ensures Conserved() && calls >= old(calls)
      ensures pcm == old(pcm) + old(GapBefore(packet)) && produced == old(produced) + old(GapBefore(packet))
      ensures old(GapBefore(packet)) == [] <==> packet.sequence == expected
      ensures counters.missing == old(counters.missing) + Distance(packet.sequence, expected)
      ensures counters.gaps == old(counters.gaps) + if packet.sequence == expected then 0 else 1
    {
      ghost var gap := GapBefore(packet);
      var missing := Distance(packet.sequence, expected);
      GapIsZero(packet.sequence, expected);
      if missing > 0 {
        counters := counters.(gaps := counters.gaps + 1, missing := counters.missing + missing);
        Conceal(missing);
        assert emitted + (old(pcm) + gap) == emitted + old(pcm) + gap;
      }
    }

    /** The same where nothing may be expected at all. */
    method FillBefore(packet: Packet)
      requires Conserved()
      modifies this`calls, this`pcm, this`produced, this`counters
      ensures Conserved() && calls >= old(calls)
      ensures pcm == old(pcm) + old(GapBefore(packet)) && produced == old(produced) + old(GapBefore(packet))
      ensures old(GapBefore(packet)) == [] <==> !hasSequence || packet.sequence == expected
      ensures counters.missing == old(counters.missing) + if hasSequence then Distance(packet.sequence, expected) else 0
      ensures counters.gaps == old(counters.gaps) + if hasSequence && packet.sequence != expected then 1 else 0
    {
      if hasSequence {
        FillGap(packet);
      }
    }

    /** Takes over what the decoder made of a packet. */
    method AcceptDecoded(packet: Packet, d: Played)
      requires Good(d) && Conserved() && |pcm| % 2 == 0
      modifies this`pcm, this`produced, this`expected, this`hasSequence, this`lastToc, this`hasLastToc
      ensures Conserved() && pcm == old(pcm) + d.buffer[..Channels * d.perChannel]
      ensures produced == old(produced) + PacketSound(d)
      ensures |pcm| % 2 == 0 && |old(pcm)| < |pcm| <= |old(pcm)| + MaxOpus
      ensures hasSequence && expected == After(packet.sequence) && hasLastToc && lastToc == packet.toc
    {
      UsableExactly(d.perChannel);
      expected := After(packet.sequence);
      hasSequence, lastToc, hasLastToc := true, packet.toc, true;
      Append(d.buffer[..Channels * d.perChannel]);
    }

    /** Decodes a packet, or resets the decoder. The gap before it was filled from
        sample `from` on. */
    method DecodeHere(packet: Packet, ghost from: nat)
      requires Conserved() && |pcm| % 2 == 0
      modifies this`calls, this`pcm, this`produced, this`counters, this`expected, this`hasSequence, this`lastToc,
               this`hasLastToc, this`built, this`tried
      ensures calls == old(calls) + 1
      ensures tried == old(tried) + [Try(packet, hasSequence, counters.missing, old(calls),
                                         from, |old(produced)|, |produced|)]
      ensures counters.missing == old(counters.missing) && counters.gaps == old(counters.gaps)
      ensures Conserved() && |pcm| % 2 == 0 && |pcm| <= |old(pcm)| + MaxOpus
      ensures hasSequence <==> Good(answers(old(calls)))
      ensures hasSequence ==> expected == After(packet.sequence) && hasLastToc && lastToc == packet.toc
      ensures pcm == old(pcm) + if hasSequence then PacketSound(answers(old(calls))) else []
      ensures produced == old(produced) + if hasSequence then PacketSound(answers(old(calls))) else []
    {
      var d := Decode();
      if Good(d) {
        AcceptDecoded(packet, d);
      } else {
        ResetDecoder();
      }
      tried := tried + [Try(packet, hasSequence, counters.missing, calls - 1, from, |old(produced)|, |produced|)];
    }

    /** Decodes a packet behind its gap: the sound of the gap comes first, then that of
        the packet, and nothing else. */
    method DecodePacket(packet: Packet) returns (ghost log: Try)
      requires Conserved() && |pcm| % 2 == 0
      modifies this`calls, this`pcm, this`produced, this`counters, this`expected, this`hasSequence, this`lastToc,
               this`hasLastToc, this`built, this`tried
      ensures calls > old(calls) && Conserved() && |pcm| % 2 == 0
      ensures hasSequence <==> Good(answers(calls - 1))
      ensures pcm == old(pcm + GapBefore(packet)) + if hasSequence then PacketSound(answers(calls - 1)) else []
      ensures produced
           == old(produced + GapBefore(packet)) + if hasSequence then PacketSound(answers(calls - 1)) else []
      ensures old(GapBefore(packet)) != [] <==> old(hasSequence) && packet.sequence != old(expected)
      ensures tried == old(tried) + [log]
      ensures log == Try(packet, hasSequence, counters.missing, calls - 1,
                         |old(produced)|, |old(produced + GapBefore(packet))|, |produced|)
      ensures counters.missing
           == old(counters.missing) + if old(hasSequence) then Distance(packet.sequence, old(expected)) else 0
      ensures counters.gaps
           == old(counters.gaps) + if old(hasSequence) && packet.sequence != old(expected) then 1 else 0
      ensures hasSequence ==> expected == After(packet.sequence) && hasLastToc && lastToc == packet.toc
    {
      FillBefore(packet);
      DecodeHere(packet, |old(produced)|);
      log := tried[|tried| - 1];
    }

    /** What holds of the buffer while packets are being decoded into it. */
    ghost predicate Filling(produced0: seq<int>, emitted0: seq<int>, tried0: seq<Try>)
      reads this
    {
      && Recorded() && tried0 <= tried
      && |pcm| % 2 == 0 && |pcm| <= BufferLimit + PcmFrame && Conserved()
      && (|pcm| > BufferLimit ==> |pcm| >= PcmFrame)
      && produced0 <= produced && emitted == emitted0
    }

    /** Decodes a popped packet and keeps the history in order. */
    method DecodeNext(packet: Packet) returns (ghost log: Try)
      requires Conserved() && |pcm| % 2 == 0 && Recorded() && Sounded()
      requires hasSequence ==> !Late(packet, expected)
      modifies this`calls, this`pcm, this`produced, this`counters, this`expected, this`hasSequence, this`lastToc,
               this`hasLastToc, this`built, this`tried
      ensures Conserved() && |pcm| % 2 == 0 && Recorded() && Sounded()
      ensures old(pcm) <= pcm && |pcm| <= |old(pcm)| + 5 * 1920 + 11520
      ensures old(produced) <= produced && tried == old(tried) + [log] && log.packet == packet
    {
      if hasSequence {
        GapIsZero(packet.sequence, expected);
      }
      log := DecodePacket(packet);
      GapThenPacket(answers, old(produced), old(GapBefore(packet)), log, produced);
      HistoryGrows(old(tried), log);
      PlayedGrows(answers, old(tried), old(produced), log, produced);
    }

    /** Pops and decodes one packet into a buffer that is short of a frame. */
    method PlayNext(ghost produced0: seq<int>, ghost tried0: seq<Try>) returns (popped: bool, ghost log: Try)
      requires Filling(produced0, emitted, tried0) && Sounded() && |pcm| < PcmFrame && queue != []
      modifies this`calls, this`pcm, this`produced, this`counters, this`expected, this`hasSequence, this`lastToc,
               this`hasLastToc, this`built, this`queue, this`tried, this`dropped
      ensures Filling(produced0, emitted, tried0) && Sounded() && |queue| < |old(queue)| && (!popped ==> queue == [])
      ensures dropped == old(dropped) + Lost(old(queue), old(expected), old(hasSequence))
      ensures old(produced) <= produced
      ensures popped ==>
                && Popped(old(queue), old(expected), old(hasSequence), log.packet, queue)
                && tried == old(tried) + [log]
      ensures !popped ==> tried == old(tried) && produced == old(produced) && old(hasSequence)
      ensures !popped ==> forall p | p in old(queue) :: Late(p, old(expected))
    {
      ghost var earlier := pcm;
      EvenBelowFrame(|pcm|);
      var packet;
      packet, popped := Pop();
      log := Try(packet, false, 0, 0, 0, 0, 0);
      if popped {
        log := DecodeNext(packet);
        ProducedGrows(produced0, produced, emitted, earlier, pcm);
      }
    }

    method FillOne(ghost produced0: seq<int>, ghost tried0: seq<Try>) returns (popped: bool)
      requires Filling(produced0, emitted, tried0) && PacketsKnown() && Sounded() && |pcm| < PcmFrame && queue != []
      modifies this`calls, this`pcm, this`produced, this`counters, this`expected, this`hasSequence, this`lastToc,
               this`hasLastToc, this`built, this`queue, this`tried, this`dropped
      ensures Filling(produced0, emitted, tried0) && PacketsKnown() && Sounded() && |queue| < |old(queue)|
      ensures !popped ==> queue == []
    {
      ghost var log;
      popped, log := PlayNext(produced0, tried0);
      if popped {
        PoppedKnown(old(queue), old(dropped), old(tried), old(expected), old(hasSequence), queue, log);
      } else {
        AllLateKnown(old(queue), old(dropped), old(tried), old(expected));
      }
    }

    /** Decodes packets until a frame is there or the queue is empty. */
    method FillBuffer()
      requires Valid()
      modifies this`calls, this`pcm, this`produced, this`counters, this`expected, this`hasSequence, this`lastToc,
               this`hasLastToc, this`built, this`queue, this`tried, this`dropped
      ensures Filling(old(produced), old(emitted), old(tried)) && PacketsKnown() && Sounded() && |queue| <= |old(queue)|
      ensures |pcm| >= PcmFrame || queue == []
      ensures |old(pcm)| >= PcmFrame ==> queue == old(queue) && produced == old(produced) && pcm == old(pcm)
    {
      while |pcm| < PcmFrame && |queue| > 0
        invariant Filling(old(produced), old(emitted), old(tried)) && PacketsKnown() && Sounded()
        invariant |queue| <= |old(queue)|
        invariant |old(pcm)| >= PcmFrame ==> queue == old(queue) && produced == old(produced) && pcm == old(pcm)
        decreases |queue|
      {
        var popped := FillOne(old(produced), old(tried));
        if !popped {
          break;
        }
      }
    }

    /** The next 20 ms of this speaker: whatever the decoder answers, a call ends,
        the buffer stays bounded and samples come out in the order they were made. */
    method NextFrame() returns (frame: seq<int>, ok: bool)
      requires Valid()
      modifies this`calls, this`pcm, this`produced, this`counters, this`expected, this`hasSequence, this`lastToc,
               this`hasLastToc, this`built, this`queue, this`emitted, this`tried, this`dropped
      ensures Valid() && |queue| <= |old(queue)| && |pcm| <= 21118 && old(tried) <= tried
      ensures old(produced) <= produced && old(emitted) <= emitted
      ensures ok <==> emitted != old(emitted)
      ensures ok ==> exists count :: Emits(frame, count, old(emitted), emitted, pcm, queue)
      ensures !ok ==> pcm == [] && queue == []
      ensures |old(pcm)| >= PcmFrame ==> queue == old(queue) && produced == old(produced)
    {
      FillBuffer();
      frame, ok := TakeFrame();
    }

    method TakeFrame() returns (frame: seq<int>, ok: bool)
      requires Conserved() && (|pcm| < PcmFrame ==> queue == []) && |pcm| % 2 == 0 && |pcm| <= BufferLimit + PcmFrame
      requires |pcm| > BufferLimit ==> |pcm| >= PcmFrame
      modifies this`pcm, this`emitted
      ensures Conserved() && |pcm| % 2 == 0 && |pcm| <= BufferLimit && old(emitted) <= emitted
      ensures ok <==> emitted != old(emitted)
      ensures ok ==> exists count :: Emits(frame, count, old(emitted), emitted, pcm, queue)
      ensures !ok ==> pcm == [] && queue == []
    {
      if pcm == [] {
        return [], false;
      }
      frame := EmitFrame();
      ok := true;
    }

    /** Cuts the next frame from the buffer, padded with silence. */
    method EmitFrame() returns (frame: seq<int>)
      requires pcm != [] && Conserved() && (|pcm| < PcmFrame ==> queue == [])
      modifies this`pcm, this`emitted
      ensures Conserved() && |pcm| == if |old(pcm)| < PcmFrame then 0 else |old(pcm)| - PcmFrame
      ensures old(emitted) < emitted && exists count :: Emits(frame, count, old(emitted), emitted, pcm, queue)
    {
      var count := Smaller(|pcm|, PcmFrame);
      frame := pcm[..count] + Zeros(PcmFrame - count);
      emitted := emitted + pcm[..count];
      assert frame[..count] == pcm[..count] && frame[count..] == Zeros(PcmFrame - count);
      pcm := pcm[count..];
      assert Emits(frame, count, old(emitted), emitted, pcm, queue);
    }
  }

  lemma ProducedGrows(before: seq<int>, produced: seq<int>, emitted: seq<int>, earlier: seq<int>, pcm: seq<int>)
    requires produced == emitted + pcm && before <= emitted + earlier && earlier <= pcm
    ensures before <= produced
  {
  }

  lemma EvenBelowFrame(n: nat)
    requires n % 2 == 0 && n < PcmFrame
    ensures n + ConcealFrames * PcmFrame + MaxOpus <= BufferLimit + PcmFrame
  {
  }
}
