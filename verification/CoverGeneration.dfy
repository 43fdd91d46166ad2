/** The generation that every start of a stream gets: a durable record per stream,
    a copy in memory, and writes that may fail before or after they take hold. */
module CoverGeneration {
  import opened Common

  const GenerationLimit := 0x1_0000_0000_0000_0000

  datatype Pair = Pair(job: nat, generation: nat)

  /** How a start fares with its record: it may not be readable, and a write may fail
      before or after it takes hold. */
  datatype Write = Done | FailsBefore | FailsAfter | Unreadable

  /** Records and copies by stream, and by stream too every pair that was put on record
      and every pair that a start was answered with. */
  datatype Store = Store(durable: map<string, Pair>, memory: map<string, Pair>,
                         made: map<string, seq<Pair>>, issued: map<string, seq<Pair>>)

  function Recorded(records: map<string, Pair>, stream: string): Pair {
    if stream in records then records[stream] else Pair(0, 0)
  }

  function Logged(log: map<string, seq<Pair>>, stream: string): seq<Pair> {
    if stream in log then log[stream] else []
  }

  function Made(s: Store, stream: string): seq<Pair> {
    Logged(s.made, stream)
  }

  function Issued(s: Store, stream: string): seq<Pair> {
    Logged(s.issued, stream)
  }

  const EmptyStore := Store(map[], map[], map[], map[])

  /** The pair to try next; the counter is a 64-bit one. */
  function NextPair(s: Store, stream: string, job: nat): Pair {
    var durable, memory := Recorded(s.durable, stream), Recorded(s.memory, stream);
    var previous := if memory.generation > durable.generation && memory.job == job then memory else durable;
    Pair(job, if previous.job == job && previous.generation > 0 then (previous.generation + 1) % GenerationLimit else 1)
  }

  datatype Op = Start(stream: string, job: nat, write: Write) | Restart

  /** A start is answered only when its pair is durable; `job` 0 needs no record. */
  predicate Issues(s: Store, op: Op)
    requires op.Start? && op.job > 0
  {
    op.write.Done? && NextPair(s, op.stream, op.job).generation > 0
  }

  function Step(s: Store, op: Op): Store {
    match op
    case Restart => s.(memory := map[])
    case Start(stream, job, write) =>
      var pair := NextPair(s, stream, job);
      if job == 0 || pair.generation == 0 || write.FailsBefore? || write.Unreadable? then s
      else
        s.(durable := s.durable[stream := pair],
           memory := if write.Done? then s.memory[stream := pair] else s.memory,
           made := s.made[stream := Made(s, stream) + [pair]],
           issued := if write.Done? then s.issued[stream := Issued(s, stream) + [pair]] else s.issued)
  }

  function Run(s: Store, ops: seq<Op>): Store
    decreases |ops|
  {
    if ops == [] then s else Run(Step(s, ops[0]), ops[1..])
  }

  // ----- Order -----

  predicate Less(a: Pair, b: Pair) { a.job < b.job || (a.job == b.job && a.generation < b.generation) }

  predicate Rising(pairs: seq<Pair>) {
    forall i, j | 0 <= i < j < |pairs| :: Less(pairs[i], pairs[j])
  }

  /** The record is the newest pair of its stream, the copy never a newer one, and
      the pairs rise. */
  ghost predicate StreamOk(s: Store, stream: string) {
    var made := Made(s, stream);
    && Rising(made)
    && (if made == [] then stream !in s.durable else stream in s.durable && s.durable[stream] == made[|made| - 1])
    && (stream in s.memory ==> s.memory[stream] in made)
    && (forall p | p in Issued(s, stream) :: p in made)
    && (forall p | p in made :: p.job > 0 && 0 < p.generation < GenerationLimit)
  }

  ghost predicate Inv(s: Store) {
    forall stream :: StreamOk(s, stream)
  }

  /** A start that gets its pair on record does not ask for an older job. */
  predicate NotOlder(s: Store, op: Op) {
    op.Start? && Step(s, op) != s ==> op.job >= Recorded(s.durable, op.stream).job
  }

  predicate NeverOlder(s: Store, ops: seq<Op>)
    decreases |ops|
  {
    ops != [] ==> NotOlder(s, ops[0]) && NeverOlder(Step(s, ops[0]), ops[1..])
  }

  lemma AllBelowRecord(s: Store, stream: string, p: Pair)
    requires StreamOk(s, stream) && p in Made(s, stream)
    ensures stream in s.durable && (p == s.durable[stream] || Less(p, s.durable[stream]))
  {
    var made := Made(s, stream);
    var i :| 0 <= i < |made| && made[i] == p;
    assert i < |made| - 1 ==> Less(made[i], made[|made| - 1]);
  }

  /** Without older jobs the copy in memory never changes the outcome. */
  lemma MemoryIsRedundant(s: Store, stream: string, job: nat)
    requires StreamOk(s, stream) && job >= Recorded(s.durable, stream).job
    ensures NextPair(s, stream, job) == NextPair(s.(memory := map[]), stream, job)
  {
    if stream in s.memory {
      AllBelowRecord(s, stream, s.memory[stream]);
    }
  }

  /** A pair about to be made durable is newer than every one before it exactly
      when its job is not older than the job on record. */
  lemma NewPairIsNewestExactly(s: Store, stream: string, job: nat)
    requires StreamOk(s, stream) && job > 0 && NextPair(s, stream, job).generation > 0
    ensures (forall p | p in Made(s, stream) :: Less(p, NextPair(s, stream, job)))
       <==> job >= Recorded(s.durable, stream).job
  {
    var next := NextPair(s, stream, job);
    if job >= Recorded(s.durable, stream).job {
      MemoryIsRedundant(s, stream, job);
      forall p | p in Made(s, stream) ensures Less(p, next) {
        AllBelowRecord(s, stream, p);
      }
    } else {
      assert s.durable[stream] in Made(s, stream) && !Less(s.durable[stream], next);
    }
  }

  lemma StartKeeps(s: Store, op: Op, stream: string)
    requires op.Start? && StreamOk(s, stream) && NotOlder(s, op)
    ensures StreamOk(Step(s, op), stream)
  {
    var u := Step(s, op);
    if u != s && stream == op.stream {
      NewPairIsNewestExactly(s, stream, op.job);
      var made, next := Made(s, stream), NextPair(s, stream, op.job);
      assert Made(u, stream) == made + [next];
      forall i, j | 0 <= i < j < |made + [next]| ensures Less((made + [next])[i], (made + [next])[j]) {
        assert made[i] in made;
      }
      assert next in made + [next];
    }
  }

  lemma StepKeeps(s: Store, op: Op)
    requires Inv(s) && NotOlder(s, op)
    ensures Inv(Step(s, op))
  {
    forall stream ensures StreamOk(Step(s, op), stream) {
      assert StreamOk(s, stream);
      if op.Start? {
        StartKeeps(s, op, stream);
      }
    }
  }

  lemma {:induction false} MadeGrows(s: Store, ops: seq<Op>, stream: string)
    ensures Made(s, stream) <= Made(Run(s, ops), stream)
    decreases |ops|
  {
    if ops != [] {
      MadeGrows(Step(s, ops[0]), ops[1..], stream);
    }
  }

  /** An older job leaves a pair on record that does not rise. */
  lemma OlderJobFalls(s: Store, op: Op)
    requires Inv(s) && !NotOlder(s, op)
    ensures !Rising(Made(Step(s, op), op.stream))
  {
    assert StreamOk(s, op.stream);
    var made, next := Made(s, op.stream), NextPair(s, op.stream, op.job);
    NewPairIsNewestExactly(s, op.stream, op.job);
    var p :| p in made && !Less(p, next);
    var i :| 0 <= i < |made| && made[i] == p;
    assert Made(Step(s, op), op.stream) == made + [next];
    assert (made + [next])[i] == p && (made + [next])[|made|] == next;
  }

  /** Over any starts and restarts, whatever the writes did, the pairs of every
      stream rise exactly when no start put an older job on record. */
  lemma {:induction false} RunRisesExactly(s: Store, ops: seq<Op>)
    requires Inv(s)
    ensures (forall stream :: Rising(Made(Run(s, ops), stream))) <==> NeverOlder(s, ops)
    ensures NeverOlder(s, ops) ==> Inv(Run(s, ops))
    decreases |ops|
  {
    if ops == [] {
      forall stream ensures Rising(Made(s, stream)) {
        assert StreamOk(s, stream);
      }
    } else if NotOlder(s, ops[0]) {
      StepKeeps(s, ops[0]);
      RunRisesExactly(Step(s, ops[0]), ops[1..]);
      assert Run(s, ops) == Run(Step(s, ops[0]), ops[1..]);
    } else {
      OlderJobFalls(s, ops[0]);
      MadeGrows(Step(s, ops[0]), ops[1..], ops[0].stream);
      PrefixRises(Made(Step(s, ops[0]), ops[0].stream), Made(Run(s, ops), ops[0].stream));
      assert !Rising(Made(Run(s, ops), ops[0].stream));
    }
  }

  lemma PrefixRises(a: seq<Pair>, b: seq<Pair>)
    requires a <= b
    ensures Rising(b) ==> Rising(a)
  {
    assert forall i | 0 <= i < |a| :: a[i] == b[i];
  }

  /** A successful start and one whose write failed after taking hold, seen from one stream. */
  lemma DoneStep(s: Store, stream: string, job: nat)
    requires job > 0 && NextPair(s, stream, job).generation > 0
    ensures var u := Step(s, Start(stream, job, Done));
            && Recorded(u.durable, stream) == Recorded(u.memory, stream) == NextPair(s, stream, job)
            && Issued(u, stream) == Issued(s, stream) + [NextPair(s, stream, job)]
  {
  }

  lemma LateFailureStep(s: Store, stream: string, job: nat)
    requires job > 0 && NextPair(s, stream, job).generation > 0
    ensures var u := Step(s, Start(stream, job, FailsAfter));
            && Recorded(u.durable, stream) == NextPair(s, stream, job)
            && Recorded(u.memory, stream) == Recorded(s.memory, stream) && Issued(u, stream) == Issued(s, stream)
  {
  }

  lemma {:induction false} RunOne(s: Store, op: Op, rest: seq<Op>)
    ensures Run(s, [op] + rest) == Run(Step(s, op), rest)
  {
    assert ([op] + rest)[0] == op && ([op] + rest)[1..] == rest;
  }

  /** An older job on record can make a start be answered with a pair a second time. */
  lemma OlderJobReissues(stream: string)
    ensures var ops := [Start(stream, 2, Done)] + ([Start(stream, 1, Done)] + ([Start(stream, 2, Done)] + []));
            Issued(Run(EmptyStore, ops), stream) == [Pair(2, 1), Pair(1, 1), Pair(2, 1)]
  {
    var two, one := Start(stream, 2, Done), Start(stream, 1, Done);
    DoneStep(EmptyStore, stream, 2);
    var s1 := Step(EmptyStore, two);
    DoneStep(s1, stream, 1);
    var s2 := Step(s1, one);
    DoneStep(s2, stream, 2);
    RunOne(EmptyStore, two, [one] + ([two] + []));
    RunOne(s1, one, [two] + []);
    RunOne(s2, two, []);
  }

  // ----- The pairs that starts are answered with -----

  /** The copy in memory is the last pair issued, unless a restart has dropped it. */
  ghost predicate IssuedOk(s: Store, stream: string) {
    var issued := Issued(s, stream);
    && Rising(issued)
    && (stream in s.memory ==> issued != [] && s.memory[stream] == issued[|issued| - 1])
    && (forall p | p in issued :: 0 < p.generation < GenerationLimit)
    && Recorded(s.durable, stream).generation < GenerationLimit
  }

  ghost predicate IssuedInv(s: Store) {
    forall stream :: IssuedOk(s, stream)
  }

  /** The record, or the copy in memory, still knows how far job `last.job` has come. */
  predicate Carried(s: Store, stream: string, last: Pair) {
    var record := Recorded(s.durable, stream);
    || (record.job == last.job && record.generation >= last.generation)
    || (stream in s.memory && last.generation > record.generation)
  }

  /** An answered start is for a newer job than the last answered one, or for the same
      one while its last generation is still known. */
  predicate GoesOn(s: Store, op: Op) {
    op.Start? && op.job > 0 && Issues(s, op) && Issued(s, op.stream) != [] ==>
      var last := Issued(s, op.stream)[|Issued(s, op.stream)| - 1];
      op.job > last.job || (op.job == last.job && Carried(s, op.stream, last))
  }

  predicate AlwaysGoesOn(s: Store, ops: seq<Op>)
    decreases |ops|
  {
    ops != [] ==> GoesOn(s, ops[0]) && AlwaysGoesOn(Step(s, ops[0]), ops[1..])
  }

  /** A pair about to be issued is newer than the last one issued exactly then. */
  lemma NextIssueRisesExactly(s: Store, op: Op)
    requires op.Start? && op.job > 0 && IssuedOk(s, op.stream) && Issues(s, op) && Issued(s, op.stream) != []
    ensures Less(Issued(s, op.stream)[|Issued(s, op.stream)| - 1], NextPair(s, op.stream, op.job)) <==> GoesOn(s, op)
  {
  }

  lemma RisesByLast(pairs: seq<Pair>, next: Pair)
    requires Rising(pairs)
    ensures Rising(pairs + [next]) <==> pairs == [] || Less(pairs[|pairs| - 1], next)
  {
    var more := pairs + [next];
    if pairs != [] {
      assert more[|pairs| - 1] == pairs[|pairs| - 1] && more[|pairs|] == next;
      if Less(pairs[|pairs| - 1], next) {
        forall i, j | 0 <= i < j < |more| ensures Less(more[i], more[j]) {
          assert i < |pairs| - 1 ==> Less(pairs[i], pairs[|pairs| - 1]);
        }
      }
    }
  }

  lemma IssueKeepsOne(s: Store, op: Op, stream: string)
    requires IssuedOk(s, stream) && Rising(Issued(Step(s, op), stream))
    ensures IssuedOk(Step(s, op), stream)
  {
  }

  lemma IssueStep(s: Store, op: Op)
    requires IssuedInv(s)
    ensures if GoesOn(s, op) then IssuedInv(Step(s, op)) else op.Start? && !Rising(Issued(Step(s, op), op.stream))
  {
    var u := Step(s, op);
    if op.Start? && op.job > 0 {
      assert IssuedOk(s, op.stream);
      var issued, next := Issued(s, op.stream), NextPair(s, op.stream, op.job);
      if Issues(s, op) {
        assert Issued(u, op.stream) == issued + [next];
        RisesByLast(issued, next);
        if issued != [] {
          NextIssueRisesExactly(s, op);
        }
      }
    }
    if GoesOn(s, op) {
      forall stream ensures IssuedOk(u, stream) {
        assert IssuedOk(s, stream);
        IssueKeepsOne(s, op, stream);
      }
    }
  }

  lemma {:induction false} IssuedGrows(s: Store, ops: seq<Op>, stream: string)
    ensures Issued(s, stream) <= Issued(Run(s, ops), stream)
    decreases |ops|
  {
    if ops != [] {
      IssuedGrows(Step(s, ops[0]), ops[1..], stream);
    }
  }

  /** Over any starts and restarts, whatever the writes did and whatever was put on
      record, the pairs issued for every stream rise exactly when every start goes on
      from the one before. */
  lemma {:induction false} IssuedRisesExactly(s: Store, ops: seq<Op>)
    requires IssuedInv(s)
    ensures (forall stream :: Rising(Issued(Run(s, ops), stream))) <==> AlwaysGoesOn(s, ops)
    decreases |ops|
  {
    if ops == [] {
      forall stream ensures Rising(Issued(s, stream)) {
        assert IssuedOk(s, stream);
      }
    } else {
      var u := Step(s, ops[0]);
      IssueStep(s, ops[0]);
      assert Run(s, ops) == Run(u, ops[1..]);
      if GoesOn(s, ops[0]) {
        IssuedRisesExactly(u, ops[1..]);
      } else {
        IssuedGrows(u, ops[1..], ops[0].stream);
        PrefixRises(Issued(u, ops[0].stream), Issued(Run(s, ops), ops[0].stream));
        assert !Rising(Issued(Run(s, ops), ops[0].stream));
      }
    }
  }

  /** Starts that never put an older job on record go on. */
  lemma {:induction false} NeverOlderGoesOn(s: Store, ops: seq<Op>)
    requires Inv(s) && IssuedInv(s) && NeverOlder(s, ops)
    ensures AlwaysGoesOn(s, ops)
    decreases |ops|
  {
    if ops != [] {
      var op := ops[0];
      if op.Start? && op.job > 0 && Issues(s, op) && Issued(s, op.stream) != [] {
        assert StreamOk(s, op.stream) && IssuedOk(s, op.stream);
        NewPairIsNewestExactly(s, op.stream, op.job);
        NextIssueRisesExactly(s, op);
        assert Issued(s, op.stream)[|Issued(s, op.stream)| - 1] in Issued(s, op.stream);
      }
      IssueStep(s, op);
      StepKeeps(s, op);
      NeverOlderGoesOn(Step(s, op), ops[1..]);
    }
  }

  /** But a start may go on after an older job was put on record: where nobody was
      answered with that job, the copy in memory outranks the record. */
  lemma OlderUnansweredJob(stream: string)
    ensures var two, one := Start(stream, 2, Done), Start(stream, 1, FailsAfter);
            var ops := [two] + ([two] + ([one] + ([two] + [])));
            && Issued(Run(EmptyStore, ops), stream) == [Pair(2, 1), Pair(2, 2), Pair(2, 3)]
            && !NeverOlder(EmptyStore, ops)
  {
    var two, one := Start(stream, 2, Done), Start(stream, 1, FailsAfter);
    DoneStep(EmptyStore, stream, 2);
    var s1 := Step(EmptyStore, two);
    DoneStep(s1, stream, 2);
    var s2 := Step(s1, two);
    LateFailureStep(s2, stream, 1);
    var s3 := Step(s2, one);
    DoneStep(s3, stream, 2);
    RunOne(EmptyStore, two, [two] + ([one] + ([two] + [])));
    RunOne(s1, two, [one] + ([two] + []));
    RunOne(s2, one, [two] + []);
    RunOne(s3, two, []);
    OlderShows(EmptyStore, two, [two] + ([one] + ([two] + [])));
    OlderShows(s1, two, [one] + ([two] + []));
    OlderShows(s2, one, [two] + []);
    assert Recorded(s3.durable, stream) != Recorded(s2.durable, stream);
  }

  lemma OlderShows(s: Store, op: Op, rest: seq<Op>)
    ensures NeverOlder(s, [op] + rest) ==> NotOlder(s, op) && NeverOlder(Step(s, op), rest)
  {
    assert ([op] + rest)[0] == op && ([op] + rest)[1..] == rest;
  }

  /** Without older jobs the next pair follows the one on record by exactly one, or
      begins its job at one. */
  lemma NextFollowsRecord(s: Store, stream: string, job: nat)
    requires StreamOk(s, stream) && job > 0 && job >= Recorded(s.durable, stream).job
    ensures var record := Recorded(s.durable, stream);
            && (job > record.job ==> NextPair(s, stream, job) == Pair(job, 1))
            && (job == record.job && record.generation + 1 < 0x1_0000_0000_0000_0000 ==>
                  NextPair(s, stream, job) == Pair(job, record.generation + 1))
  {
    MemoryIsRedundant(s, stream, job);
    if stream in s.durable {
      assert s.durable[stream] in Made(s, stream);
    }
  }

  /** The last generation of a job is never followed by a wrapped one. */
  lemma ExhaustedStaysPut(s: Store, stream: string, job: nat, write: Write)
    requires StreamOk(s, stream) && job > 0 && Recorded(s.durable, stream) == Pair(job, GenerationLimit - 1)
    ensures Step(s, Start(stream, job, write)) == s && !Issues(s, Start(stream, job, write))
  {
    MemoryIsRedundant(s, stream, job);
  }

  /** What BeginStartPreparation demands of a job is more than enough. */
  predicate BeginAllows(s: Store, stream: string, job: nat) {
    job > 0 && Recorded(s.durable, stream).job < job
  }

  lemma PreparedStartBeginsEpoch(s: Store, stream: string, job: nat)
    requires StreamOk(s, stream) && BeginAllows(s, stream, job)
    ensures NextPair(s, stream, job) == Pair(job, 1)
    ensures forall p | p in Made(s, stream) :: p.job < job
  {
    MemoryIsRedundant(s, stream, job);
    forall p | p in Made(s, stream) ensures p.job < job {
      AllBelowRecord(s, stream, p);
    }
  }

  lemma StartIsSound(s: Store, op: Op)
    requires op.Start?
    ensures Inv(s) && NotOlder(s, op) ==> Inv(Step(s, op))
    ensures Inv(s) && NotOlder(s, op) && op.job > 0 && Issues(s, op) ==>
              forall p | p in Made(s, op.stream) :: Less(p, NextPair(s, op.stream, op.job))
    ensures IssuedInv(s) && GoesOn(s, op) ==> IssuedInv(Step(s, op))
  {
    if Inv(s) && NotOlder(s, op) {
      StepKeeps(s, op);
      assert StreamOk(s, op.stream);
      if op.job > 0 && Issues(s, op) {
        NewPairIsNewestExactly(s, op.stream, op.job);
      }
    }
    if IssuedInv(s) && GoesOn(s, op) {
      IssueStep(s, op);
    }
  }

  datatype Answer = Failed | Generation(value: nat)

  class Generations {
    var durable: map<string, Pair>
    var memory: map<string, Pair>
    ghost var made: map<string, seq<Pair>>
    ghost var issued: map<string, seq<Pair>>

    constructor ()
      ensures View() == EmptyStore && Inv(View()) && IssuedInv(View())
    {
      durable, memory, made, issued := map[], map[], map[], map[];
    }

    ghost function View(): Store
      reads this
    {
      Store(durable, memory, made, issued)
    }

    method WriteRecord(stream: string, record: Pair, write: Write) returns (ok: bool)
      modifies this`durable, this`made
      ensures ok <==> record.job >= 1 && record.generation >= 1 && write.Done?
      ensures if record.job < 1 || record.generation < 1 || write.FailsBefore?
              then durable == old(durable) && made == old(made)
              else && durable == old(durable)[stream := record]
                   && made == old(made)[stream := Made(old(View()), stream) + [record]]
    {
      if record.job < 1 || record.generation < 1 || write.FailsBefore? {
        return false;
      }
      durable := durable[stream := record];
      made := made[stream := Made(View(), stream) + [record]];
      ok := write.Done?;
    }

    method NextValue(stream: string, job: nat) returns (next: nat)
      ensures Pair(job, next) == NextPair(View(), stream, job)
    {
      var previous := if stream in durable then durable[stream] else Pair(0, 0);
      if stream in memory && memory[stream].generation > previous.generation && memory[stream].job == job {
        previous := memory[stream];
      }
      next := 1;
      if previous.job == job && previous.generation > 0 {
        next := (previous.generation + 1) % GenerationLimit;
      }
    }

    method NextCoverGeneration(stream: string, job: nat, write: Write) returns (r: Answer)
      modifies this
      ensures View() == Step(old(View()), Start(stream, job, write))
      ensures job == 0 ==> r == Generation(1)
      ensures job > 0 ==> r == if Issues(old(View()), Start(stream, job, write))
                               then Generation(NextPair(old(View()), stream, job).generation) else Failed
      ensures old(Inv(View()) && NotOlder(View(), Start(stream, job, write))) ==> Inv(View())
      ensures old(IssuedInv(View()) && GoesOn(View(), Start(stream, job, write))) ==> IssuedInv(View())
      ensures old(Inv(View()) && NotOlder(View(), Start(stream, job, write))) && job > 0 && r.Generation? ==>
                forall p | p in Made(old(View()), stream) :: Less(p, Pair(job, r.value))
    {
      StartIsSound(View(), Start(stream, job, write));
      if job == 0 {
        return Generation(1);
      }
      if write.Unreadable? {
        return Failed;
      }
      var next := NextValue(stream, job);
      var written := WriteRecord(stream, Pair(job, next), write);
      if !written {
        return Failed;
      }
      memory := memory[stream := Pair(job, next)];
      issued := issued[stream := Issued(View(), stream) + [Pair(job, next)]];
      r := Generation(next);
    }
  }
}
