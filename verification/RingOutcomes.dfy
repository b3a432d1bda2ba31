/**
 What the ring's operations come to.  However consumers and the producer
 interleave, an enqueue that may allocate ends with its value appended, and a
 consumer that has claimed indices ends having read the values enqueued at them,
 each after a bounded number of its own steps.  A dequeue that runs alone takes
 the front of the queue.
 */
module RingOutcomes {
  import C = DequeueCounters
  import opened ExplicitRing

  ghost predicate Ok<T>(s: State<T>) { Inv(s) && C.Inv(s.counters) }

  /** One step, from any state that has the right shape. */
  ghost function Step<T>(s: State<T>, c: Call<T>): State<T> {
    if Shape(s) then Next(s, c) else s
  }

  lemma RunFirst<T>(s: State<T>, cs: seq<Call<T>>, n: nat)
    requires Ok(s) && n < |cs|
    ensures Ok(Next(s, cs[0])) && Run(s, cs[..n + 1]) == Run(Next(s, cs[0]), cs[1..][..n])
  {
    StepKeepsInv(s, cs[0]);
    assert cs[..n + 1][0] == cs[0] && cs[..n + 1][1..] == cs[1..][..n];
  }

  // ---------------------------------------------------------------- enqueue

  /** How many accesses the producer has still to make, at most. */
  function EnqueueSteps<T>(p: Producing<T>, B: nat): int {
    match p
    case PIdle => 0
    case PPublish(_) => 1
    case PConstruct(_) => 2
    case PWriteFront(_) => 3
    case PWriteBlock(_) => 4
    case PWriteBase(_) => 5
    case PReset(_, i) => 5 + (B - i)
    case PNewBlock(_) => 6
    case PGrow(_) => 7
    case PLoadHead(_) => 8
    case PScan(_, i) => 8 + B + (B - i)
  }

  predicate GivesUp<T>(c: Call<T>) { c.ProducerStep? && c.giveUp }

  predicate NoneGivesUp<T>(cs: seq<Call<T>>) { forall i :: 0 <= i < |cs| ==> !GivesUp(cs[i]) }

  function ProducerSteps<T>(cs: seq<Call<T>>): nat {
    if cs == [] then 0 else (if cs[0].Consumer? then 0 else 1) + ProducerSteps(cs[1..])
  }

  /** Inside an enqueue, each access that does not give up leads on towards its end. */
  lemma EnqueueTurn<T>(s: State<T>, c: Call<T>)
    requires Shape(s) && IndexOk(s) && !s.producer.PIdle? && !c.Consumer? && !GivesUp(c)
    ensures EnqueueSteps(s.producer, s.B) > 0
    ensures var s' := Next(s, c);
      && s'.B == s.B
      && (s'.producer.PIdle? ==> s'.enqueued == s.enqueued + [s.producer.v])
      && (!s'.producer.PIdle? ==>
        && s'.enqueued == s.enqueued && s'.producer.v == s.producer.v
        && EnqueueSteps(s'.producer, s.B) < EnqueueSteps(s.producer, s.B))
  {
    assert Next(s, c) == ProducerNext(s, c);
  }

  lemma ConsumerLeavesProducer<T>(s: State<T>, c: Call<T>)
    requires Shape(s) && c.Consumer?
    ensures var s' := Next(s, c); s'.B == s.B && s'.producer == s.producer && s'.enqueued == s.enqueued
  {
  }

  lemma EnqueueEvent<T>(s: State<T>, c: Call<T>)
    requires Ok(s) && !s.producer.PIdle? && !GivesUp(c)
    ensures EnqueueSteps(s.producer, s.B) > 0 && Ok(Next(s, c))
    ensures var s' := Next(s, c);
      && s'.B == s.B
      && (s'.producer.PIdle? ==> s'.enqueued == s.enqueued + [s.producer.v])
      && (!s'.producer.PIdle? ==>
        && s'.enqueued == s.enqueued && s'.producer.v == s.producer.v
        && EnqueueSteps(s'.producer, s.B) <= EnqueueSteps(s.producer, s.B) - if c.Consumer? then 0 else 1)
  {
    StepKeepsInv(s, c);
    EnqueueTurn(s, ProducerStep(false));
    if c.Consumer? { ConsumerLeavesProducer(s, c); } else { EnqueueTurn(s, c); }
  }

  /** An enqueue that may allocate ends with its value appended, whatever the
      consumers do meanwhile. */
  lemma {:induction false} EnqueueEnds<T>(s: State<T>, cs: seq<Call<T>>) returns (n: nat)
    requires Ok(s) && !s.producer.PIdle? && ProducerSteps(cs) >= EnqueueSteps(s.producer, s.B)
    requires NoneGivesUp(cs)
    ensures n <= |cs| && Run(s, cs[..n]).producer.PIdle?
    ensures Run(s, cs[..n]).enqueued == s.enqueued + [s.producer.v]
    decreases |cs|
  {
    assert cs != [] by { EnqueueEvent(s, ProducerStep(false)); }
    EnqueueEvent(s, cs[0]);
    n := 0;
    if !Next(s, cs[0]).producer.PIdle? { n := EnqueueEnds(Next(s, cs[0]), cs[1..]); }
    assert cs[1..][..0] == [];
    RunFirst(s, cs, n);
    n := n + 1;
  }

  /** ... and it is begun by any call that finds the producer idle, with at most
      two steps for each cell of a block and eight more. */
  lemma EnqueueBegins<T>(s: State<T>, v: T)
    requires Ok(s) && s.producer.PIdle?
    ensures var s' := Next(s, Produce(v));
      && Ok(s') && !s'.producer.PIdle? && s'.producer.v == v && s'.enqueued == s.enqueued
      && EnqueueSteps(s'.producer, s'.B) <= 8 + 2 * s'.B
  {
    StepKeepsInv(s, Produce(v));
  }

  /** Only an enqueue that may not allocate, or is over the size limit, appends nothing. */
  lemma OnlyGivingUpAppendsNothing<T>(s: State<T>, c: Call<T>)
    requires Ok(s) && !s.producer.PIdle? && Next(s, c).producer.PIdle? && Next(s, c).enqueued == s.enqueued
    ensures GivesUp(c) && (s.producer.PLoadHead? || s.producer.PNewBlock?)
  {
    if c.Consumer? { ConsumerLeavesProducer(s, c); }
    else if !GivesUp(c) { EnqueueTurn(s, c); }
  }

  /** The producer's next n accesses, with no consumer's between them. */
  ghost function ProducerAlone<T>(s: State<T>, n: nat): State<T>
    decreases n
  {
    if n == 0 then s else ProducerAlone(Step(s, ProducerStep(false)), n - 1)
  }

  /** What the scan from flag i on leaves: the block ahead taken over if all those
      flags are set, and else a request for another block. */
  ghost function Scanned<T>(s: State<T>, v: T, i: nat): State<T>
    requires Shape(s) && s.producer.PScan?
  {
    var ahead := s.blocks[s.tailBlock.value].next;
    if forall p :: i <= p < s.B ==> s.blocks[ahead].empty[p] then TakeOver(s, ahead)
    else s.(producer := PLoadHead(v))
  }

  lemma ScanTurn<T>(s: State<T>)
    requires Shape(s) && s.producer.PScan?
    ensures var s' := Step(s, ProducerStep(false)); var PScan(v, i) := s.producer;
      && (s'.producer.PScan? ==>
        s' == s.(producer := PScan(v, i + 1)) && i + 1 < s.B && Shape(s') && Scanned(s', v, i + 1) == Scanned(s, v, i))
      && (!s'.producer.PScan? ==> s' == Scanned(s, v, i))
  {
    var PScan(v, i) := s.producer;
    var s' := s.(producer := PScan(v, i + 1));
    assert i + 1 < s.B ==> Shape(s');
  }

  /** A block is reused exactly when all its flags are set, which takes one step for each. */
  lemma {:induction false} ScanAlone<T>(s: State<T>) returns (n: nat)
    requires Shape(s) && s.producer.PScan?
    ensures n <= s.B - s.producer.i && ProducerAlone(s, n) == Scanned(s, s.producer.v, s.producer.i)
    decreases s.B - s.producer.i
  {
    var s' := Step(s, ProducerStep(false));
    ScanTurn(s);
    n := 0;
    if s'.producer.PScan? { n := ScanAlone(s'); }
    n := n + 1;
  }

  // ---------------------------------------------------------------- dequeue

  /** How many accesses a consumer that owns first .. first + count has still to make. */
  function ReadSteps(r: Reading, first: nat, count: nat): int {
    var stop := first + count;
    match r
    case RIdle => 0
    case RDone => 0
    case RLoadIndex => 3 * count + 3
    case RLoadFront(_) => 3 * count + 2
    case RReadBase(_, _) => 3 * count + 1
    case RReadEntry(_, _, k) => 3 * (stop - k)
    case RTake(_, _, _, k, i, e) => 3 * (stop - e) + (e - i) + (e - k)
    case RFlag(_, _, _, k, j, e) => 3 * (stop - e) + (e - k) - j
  }

  lemma StepsLeft<T>(s: State<T>, t: nat)
    requires Shape(s) && t < |s.readers| && s.counters.threads[t].Got? && ReaderOk(s, t) && !s.readers[t].RDone?
    ensures ReadSteps(s.readers[t], s.counters.threads[t].first, s.counters.threads[t].count) > 0
  {
  }

  ghost predicate Reads<T>(s: State<T>, s': State<T>, t: nat)
    requires |s.readers| == |s.counters.threads| && |s'.readers| == |s'.counters.threads| == |s.readers|
    requires t < |s.readers| && s.counters.threads[t].Got?
  {
    var q := s.counters.threads[t];
    && s'.counters.threads[t] == q
    && ReadSteps(s'.readers[t], q.first, q.count) < ReadSteps(s.readers[t], q.first, q.count)
    && s'.enqueued == s.enqueued
  }

  /** The loads from the index lead on. */
  lemma LoadTurn<T>(s: State<T>, t: nat)
    requires Inv(s) && t < |s.readers| && s.counters.threads[t].Got?
    requires s.readers[t].RLoadIndex? || IsLoad(s.readers[t])
    ensures |ReaderNext(s, t).readers| == |s.readers| == |ReaderNext(s, t).counters.threads|
    ensures Reads(s, ReaderNext(s, t), t)
  {
    assert ReaderOk(s, t);
    var r, q := s.readers[t], s.counters.threads[t];
    if r.RReadEntry? { EntryTurn(s, t); }
    else if r.RReadBase? { assert FrontSeen(s.B, s.headers[r.h], s.windows[r.h], r.f, q.first); }
  }

  lemma EntryTurn<T>(s: State<T>, t: nat)
    requires Inv(s) && t < |s.readers| && s.counters.threads[t].Got? && s.readers[t].RReadEntry?
    ensures |ReaderNext(s, t).readers| == |s.readers| == |ReaderNext(s, t).counters.threads|
    ensures Reads(s, ReaderNext(s, t), t)
  {
    assert ReaderOk(s, t);
    var r := s.readers[t];
    assert r.ii == Slot(s.headers[r.h], s.windows[r.h], r.k / s.B);
    assert r.k < r.k - r.k % s.B + s.B;
  }

  /** An element is moved out. */
  lemma TakeTurn<T>(s: State<T>, t: nat)
    requires Inv(s) && t < |s.readers| && s.counters.threads[t].Got? && s.readers[t].RTake?
    ensures |ReaderNext(s, t).readers| == |s.readers| == |ReaderNext(s, t).counters.threads|
    ensures Reads(s, ReaderNext(s, t), t)
  {
    assert ReaderOk(s, t);
    TakeFindsElement(s, t);
    var r := s.readers[t];
    assert Take(s, t).readers == s.readers[t := Taken(r)];
  }

  /** A flag is set. */
  lemma FlagTurn<T>(s: State<T>, t: nat)
    requires Inv(s) && t < |s.readers| && s.counters.threads[t].Got? && s.readers[t].RFlag?
    ensures |ReaderNext(s, t).readers| == |s.readers| == |ReaderNext(s, t).counters.threads|
    ensures Reads(s, ReaderNext(s, t), t)
  {
    assert ReaderOk(s, t);
    FlagOfIndex(s, t);
    var r, q := s.readers[t], s.counters.threads[t];
    assert MarkEmpty(s, t).readers == s.readers[t := Flagged(r, q.first + q.count, |s.headers[r.h].entries|)];
  }

  lemma ReaderTurn<T>(s: State<T>, t: nat)
    requires Inv(s) && t < |s.readers| && s.counters.threads[t].Got? && !s.readers[t].RDone?
    ensures |ReaderNext(s, t).readers| == |s.readers| == |ReaderNext(s, t).counters.threads|
    ensures Reads(s, ReaderNext(s, t), t)
  {
    assert ReaderOk(s, t);
    if s.readers[t].RTake? { TakeTurn(s, t); } else if s.readers[t].RFlag? { FlagTurn(s, t); } else { LoadTurn(s, t); }
  }

  predicate By<T>(c: Call<T>, t: nat) { c.Consumer? && c.t == t }

  function Turns<T>(cs: seq<Call<T>>, t: nat): nat {
    if cs == [] then 0 else (if By(cs[0], t) then 1 else 0) + Turns(cs[1..], t)
  }

  /** Others leave a consumer where it is, and what is enqueued stays. */
  lemma OthersLeave<T>(s: State<T>, t: nat, c: Call<T>)
    requires Shape(s) && t < |s.readers| && !By(c, t)
    ensures var s' := Next(s, c);
      && |s'.readers| == |s.readers| == |s'.counters.threads| && s.enqueued <= s'.enqueued
      && s'.readers[t] == s.readers[t] && s'.counters.threads[t] == s.counters.threads[t]
  {
    if c.Consumer? {
      if c.t < |s.readers| && !s.counters.threads[c.t].Got? { CounterShape(s.counters, c.t, c.c); }
    }
  }

  lemma ReadEvent<T>(s: State<T>, t: nat, c: Call<T>)
    requires Ok(s) && t < |s.readers| && s.counters.threads[t].Got? && !s.readers[t].RDone?
    ensures var q := s.counters.threads[t]; var s' := Next(s, c);
      && ReadSteps(s.readers[t], q.first, q.count) > 0
      && Ok(s') && s.enqueued <= s'.enqueued && |s'.readers| == |s.readers| && s'.counters.threads[t] == q
      && ReadSteps(s'.readers[t], q.first, q.count)
         <= ReadSteps(s.readers[t], q.first, q.count) - if By(c, t) then 1 else 0
  {
    assert ReaderOk(s, t);
    StepsLeft(s, t);
    StepKeepsInv(s, c);
    if By(c, t) { ReaderTurn(s, t); } else { OthersLeave(s, t, c); }
  }

  /** Everything a consumer at its end has read is what was enqueued there. */
  ghost predicate HasRead<T>(s: State<T>, t: nat, first: nat, count: nat, enqueued: seq<T>) {
    && t < |s.readers| == |s.counters.threads|
    && s.readers[t].RDone? && s.counters.threads[t] == C.Got(first, count)
    && forall x :: first <= x < first + count ==> x < |enqueued| && x in s.got && s.got[x] == enqueued[x]
  }

  lemma ReadAtEnd<T>(s: State<T>, t: nat)
    requires Inv(s) && t < |s.readers| && s.readers[t].RDone?
    ensures s.counters.threads[t].Got?
    ensures HasRead(s, t, s.counters.threads[t].first, s.counters.threads[t].count, s.enqueued)
  {
    assert ReaderOk(s, t);
    var q := s.counters.threads[t];
    forall x | q.first <= x < q.first + q.count ensures x in s.got { assert !Untaken(RDone, q.first, q.count, x); }
  }

  /** A consumer that has claimed indices reads, after a bounded number of its own
      steps, the values enqueued at them, whatever others do meanwhile. */
  lemma {:induction false} ReadEnds<T>(s: State<T>, cs: seq<Call<T>>, t: nat) returns (n: nat)
    requires Ok(s) && t < |s.readers| && s.counters.threads[t].Got?
    requires Turns(cs, t) >= ReadSteps(s.readers[t], s.counters.threads[t].first, s.counters.threads[t].count)
    ensures n <= |cs| && s.enqueued <= Run(s, cs[..n]).enqueued
    ensures var q, r := s.counters.threads[t], Run(s, cs[..n]); HasRead(r, t, q.first, q.count, r.enqueued)
    decreases |cs|
  {
    n := 0;
    if s.readers[t].RDone? {
      assert cs[..0] == [];
      ReadAtEnd(s, t);
    } else {
      ReadEvent(s, t, if cs == [] then ProducerStep(false) else cs[0]);
      n := ReadEnds(Next(s, cs[0]), cs[1..], t);
      RunFirst(s, cs, n);
      n := n + 1;
    }
  }

  // --------------------------------------------------------- dequeue, alone

  /** Consumer t's next n accesses, with nobody else's between them. */
  ghost function Alone<T>(s: State<T>, t: nat, n: nat): State<T>
    decreases n
  {
    if n == 0 then s else Alone(Step(s, Consumer(t, C.Advance)), t, n - 1)
  }

  lemma {:induction false} AloneKeepsEnqueued<T>(s: State<T>, t: nat, n: nat)
    ensures Alone(s, t, n).enqueued == s.enqueued
    decreases n
  {
    if n > 0 {
      if Shape(s) { ConsumerLeavesProducer(s, Consumer(t, C.Advance)); }
      AloneKeepsEnqueued(Step(s, Consumer(t, C.Advance)), t, n - 1);
    }
  }

  /** ... as a run. */
  function Own<T>(t: nat, n: nat): (cs: seq<Call<T>>)
    ensures |cs| == n
  {
    seq(n, _ => Consumer(t, C.Advance))
  }

  lemma {:induction false} OwnTurns<T>(t: nat, n: nat)
    ensures Turns(Own<T>(t, n), t) == n
  {
    if n > 0 {
      assert Own<T>(t, n)[1..] == Own<T>(t, n - 1);
      OwnTurns<T>(t, n - 1);
    }
  }

  lemma OwnFirst<T>(s: State<T>, t: nat, n: nat)
    requires Ok(s) && n > 0
    ensures Ok(Step(s, Consumer(t, C.Advance)))
    ensures Run(s, Own(t, n)) == Run(Step(s, Consumer(t, C.Advance)), Own(t, n - 1))
  {
    StepKeepsInv(s, Consumer(t, C.Advance));
    assert Own<T>(t, n)[1..] == Own<T>(t, n - 1);
  }

  lemma {:induction false} AloneIsRun<T>(s: State<T>, t: nat, n: nat)
    requires Ok(s)
    ensures Ok(Alone(s, t, n)) && Run(s, Own(t, n)) == Alone(s, t, n)
    decreases n
  {
    if n > 0 {
      OwnFirst(s, t, n);
      AloneIsRun(Step(s, Consumer(t, C.Advance)), t, n - 1);
    }
  }

  lemma GotStays(k: C.State, t: nat, m: nat)
    requires C.TicketsInRange(k) && t < |k.threads| && k.threads[t].Got?
    ensures C.Alone(k, t, m) == k
  {
    if m > 0 { GotStays(k, t, m - 1); }
  }

  /** Consumer t has no indices, or has just claimed some. */
  ghost predicate Counting<T>(s: State<T>, t: nat) {
    Shape(s) && t < |s.readers| && (!s.counters.threads[t].Got? ==> s.readers[t].RIdle?)
  }

  /** Until it has claimed something, a consumer only moves the counters. */
  lemma CounterMove<T>(s: State<T>, t: nat)
    requires Counting(s, t) && !s.counters.threads[t].Got?
    ensures var s' := Step(s, Consumer(t, C.Advance));
      && Counting(s', t) && s'.counters == C.Next(s.counters, t, C.Advance)
      && (!s'.counters.threads[t].Got? ==> s' == s.(counters := s'.counters))
  {
    CounterShape(s.counters, t, C.Advance);
    C.StepInRange(s.counters, t);
    assert s.readers[t := RIdle] == s.readers;
  }

  /** A consumer that claims nothing does no more than that. */
  lemma {:induction false} CountersFollow<T>(s: State<T>, t: nat, m: nat)
    requires Counting(s, t) && !C.Alone(s.counters, t, m).threads[t].Got?
    ensures Alone(s, t, m) == s.(counters := C.Alone(s.counters, t, m))
    decreases m
  {
    if s.counters.threads[t].Got? { GotStays(s.counters, t, m); }
    if m > 0 {
      CounterMove(s, t);
      var s' := Step(s, Consumer(t, C.Advance));
      if s'.counters.threads[t].Got? { GotStays(s'.counters, t, m - 1); }
      CountersFollow(s', t, m - 1);
    }
  }

  lemma ReadAlone<T>(s: State<T>, t: nat, first: nat, count: nat) returns (n: nat)
    requires Ok(s) && t < |s.readers| && s.counters.threads[t] == C.Got(first, count)
    ensures HasRead(Alone(s, t, n), t, first, count, s.enqueued)
  {
    var steps := ReadSteps(s.readers[t], first, count);
    var m: nat := if steps < 0 then 0 else steps;
    OwnTurns<T>(t, m);
    n := ReadEnds(s, Own(t, m), t);
    assert Own<T>(t, m)[..n] == Own<T>(t, n);
    AloneIsRun(s, t, n);
    AloneKeepsEnqueued(s, t, n);
  }

  /** One that claims indices goes on to read what was enqueued at them. */
  lemma {:induction false} ClaimsThenReads<T>(s: State<T>, t: nat, m: nat, first: nat, count: nat) returns (n: nat)
    requires Ok(s) && t < |s.readers| && C.Alone(s.counters, t, m).threads[t] == C.Got(first, count)
    ensures HasRead(Alone(s, t, n), t, first, count, s.enqueued)
    decreases m
  {
    var k := s.counters.threads[t];
    if k.Got? {
      assert k == C.Got(first, count) by { GotStays(s.counters, t, m); }
      n := ReadAlone(s, t, first, count);
    } else {
      ClaimTurn(s, t, m);
      n := ClaimsThenReads(Step(s, Consumer(t, C.Advance)), t, m - 1, first, count);
      n := n + 1;
    }
  }

  lemma ClaimTurn<T>(s: State<T>, t: nat, m: nat)
    requires Ok(s) && t < |s.readers| && !s.counters.threads[t].Got? && C.Alone(s.counters, t, m).threads[t].Got?
    ensures m > 0
    ensures var s' := Step(s, Consumer(t, C.Advance));
      && Ok(s') && t < |s'.readers| && s'.enqueued == s.enqueued
      && C.Alone(s'.counters, t, m - 1) == C.Alone(s.counters, t, m)
  {
    StepKeepsInv(s, Consumer(t, C.Advance));
    assert ReaderOk(s, t);
    CounterMove(s, t);
  }

  /** A dequeue that runs alone with elements that nobody has asked for: it reads as
      many as it may of them, from the head on. */
  lemma DequeueAlone<T>(s: State<T>, t: nat, max: nat) returns (n: nat)
    requires Ok(s) && t < |s.readers| && s.counters.threads[t] == C.LoadTail(max)
    ensures var u, r := C.Unasked(s.counters), Alone(s, t, n);
      && (u <= 0 ==> r == s.(counters := C.At(s.counters, t, C.Idle)))
      && (u > 0 ==> HasRead(r, t, s.counters.head, C.Min(u, max), s.enqueued))
  {
    var u := C.Unasked(s.counters);
    C.DequeueAlone(s.counters, t, max);
    if u <= 0 {
      assert ReaderOk(s, t);
      n := 3;
      CountersFollow(s, t, n);
    } else {
      n := ClaimsThenReads(s, t, 6, s.counters.head, C.Min(u, max));
    }
  }

  /** With no request in flight: a dequeue that runs alone returns nothing exactly
      when the queue is empty, and else reads from its front. */
  lemma DequeueAloneWhenQuiet<T>(s: State<T>, t: nat, max: nat) returns (n: nat)
    requires Ok(s) && t < |s.readers| && s.counters.threads[t] == C.LoadTail(max)
    requires forall u :: 0 <= u < |s.counters.threads| ==> C.InFlight(s.counters.threads[u]) == 0
    ensures var k, r := s.counters, Alone(s, t, n);
      && k.head <= k.tail == |s.enqueued|
      && (k.head == k.tail ==> r == s.(counters := C.At(k, t, C.Idle)))
      && (k.head < k.tail ==> HasRead(r, t, k.head, C.Min(max, k.tail - k.head), s.enqueued))
  {
    C.SumsIdle(s.counters.threads);
    n := DequeueAlone(s, t, max);
  }
}
