/**
 The lightweight semaphore: a signed counter over a kernel semaphore.

 A step is one access to the counter or one kernel operation.  Any number of
 threads wait (with or without a timeout, one unit or many) and signal.  Spin
 counts and clocks are left to the scheduler: when a waiter stops spinning, and
 when its kernel wait times out, is the caller's choice in the schedule.
 */
module Semaphore {

  /** What a waiting call wants: `wait` takes one unit; the many-unit calls take
      up to max, and only some calls may block. */
  datatype Pc =
    | Idle
    | TryLoad(max: nat, block: bool, timed: bool)                  // tryWait, tryWaitMany: m_count.load
    | TryCas(max: nat, block: bool, timed: bool, seen: int)        // ... and compare_exchange_weak
    | SpinLoad(max: nat, timed: bool)                              // spinning: m_count.load
    | SpinCas(max: nat, timed: bool, seen: int)                    // ... and compare_exchange_strong
    | Decrement(max: nat, timed: bool)                             // m_count.fetch_sub(1)
    | KernelWait(max: nat, timed: bool)                            // m_sema.wait or timed_wait
    | UndoLoad(max: nat)                                           // after a timeout: m_count.load
    | UndoTry(max: nat)                                            // m_sema.try_wait
    | UndoCas(max: nat, seen: int)                                 // compare_exchange to give the unit back
    | MoreLoad(max: nat)                                           // got one; tryWaitMany(max - 1)
    | MoreCas(max: nat, seen: int)
    | SignalAdd(n: nat)                                            // m_count.fetch_add(n)
    | Release(n: nat)                                              // m_sema.signal(n): n more posts

  datatype State = State(
    count: int,              // m_count
    permits: nat,            // the kernel semaphore
    threads: seq<Pc>,
    initial: nat,            // bookkeeping: the initial count
    signaled: nat,           // bookkeeping: units signaled so far
    acquired: nat)           // bookkeeping: units acquired so far

  datatype Call =
    | CallTry(max: nat)                     // tryWait (max 1), tryWaitMany
    | CallWait(max: nat, timed: bool)       // wait (max 1), waitMany
    | CallSignal(n: nat)
    | Advance
    | Alternative                           // spurious CAS failure, end of spinning, or timeout

  function Clamp(c: int): nat { if c > 0 then c else 0 }

  /** What a successful try leaves in the counter. */
  function Remaining(seen: int, max: nat): int { if seen > max then seen - max else 0 }

  function WithPc(s: State, t: nat, p: Pc): State
    requires t < |s.threads|
  {
    s.(threads := s.threads[t := p])
  }

  /** Take seen - Remaining units from the counter if it still holds `seen`. */
  function Grab(s: State, t: nat, seen: int, max: nat, won: Pc, lost: Pc): State
    requires t < |s.threads| && seen > 0
  {
    if s.count == seen then
      WithPc(s, t, won).(count := Remaining(seen, max), acquired := s.acquired + (seen - Remaining(seen, max)))
    else WithPc(s, t, lost)
  }

  predicate PcShape(p: Pc) {
    && (p.TryCas? || p.SpinCas? || p.MoreCas? ==> p.seen > 0)
    && (p.UndoCas? ==> p.seen < 0)
    && (p.SpinLoad? || p.SpinCas? || p.Decrement? || p.KernelWait? || p.UndoLoad? || p.UndoTry? || p.UndoCas? ==>
      p.max > 0)
    && (p.Release? ==> p.n > 0)
  }

  ghost predicate Shape(s: State) {
    forall t :: 0 <= t < |s.threads| ==> PcShape(s.threads[t])
  }

  /** Where a try that found nothing goes. */
  function AfterTry(max: nat, block: bool, timed: bool): Pc {
    if block && max > 0 then SpinLoad(max, timed) else Idle
  }

  /** The loop test of a try, on the count it has just seen: a failed
      compare_exchange brings the current count along. */
  function Try(count: int, max: nat, block: bool, timed: bool): Pc {
    if count > 0 then TryCas(max, block, timed, count) else AfterTry(max, block, timed)
  }

  function More(count: int, max: nat): Pc { if count > 0 then MoreCas(max, count) else Idle }

  /** With one unit in hand, a many-unit wait looks for more. */
  function GotOne(max: nat): Pc { if max > 1 then MoreLoad(max - 1) else Idle }

  ghost function Next(s: State, t: nat, c: Call): State
    requires Shape(s) && t < |s.threads|
  {
    match s.threads[t]
    case Idle =>
      (match c
       case CallTry(max) => WithPc(s, t, TryLoad(max, false, false))
       case CallWait(max, timed) => WithPc(s, t, TryLoad(max, true, timed))
       case CallSignal(n) => WithPc(s, t, SignalAdd(n))
       case _ => s)
    case TryLoad(max, block, timed) =>
      WithPc(s, t, Try(s.count, max, block, timed))
    case TryCas(max, block, timed, seen) =>
      if c.Alternative? then WithPc(s, t, Try(s.count, max, block, timed))
      else Grab(s, t, seen, max, Idle, Try(s.count, max, block, timed))
    case SpinLoad(max, timed) =>
      if c.Alternative? then WithPc(s, t, Decrement(max, timed))
      else WithPc(s, t, if s.count > 0 then SpinCas(max, timed, s.count) else SpinLoad(max, timed))
    case SpinCas(max, timed, seen) =>
      Grab(s, t, seen, max, Idle, SpinLoad(max, timed))
    case Decrement(max, timed) =>
      if s.count > 0 then WithPc(s, t, GotOne(max)).(count := s.count - 1, acquired := s.acquired + 1)
      else WithPc(s, t, KernelWait(max, timed)).(count := s.count - 1)
    case KernelWait(max, timed) =>
      if timed && c.Alternative? then WithPc(s, t, UndoLoad(max))
      else if s.permits > 0 then WithPc(s, t, GotOne(max)).(permits := s.permits - 1, acquired := s.acquired + 1)
      else s
    case UndoLoad(max) =>
      WithPc(s, t, if s.count >= 0 then UndoTry(max) else UndoCas(max, s.count))
    case UndoTry(max) =>
      if s.permits > 0 then WithPc(s, t, GotOne(max)).(permits := s.permits - 1, acquired := s.acquired + 1)
      else WithPc(s, t, UndoLoad(max))
    case UndoCas(max, seen) =>
      if s.count == seen then WithPc(s, t, Idle).(count := seen + 1)
      else WithPc(s, t, UndoLoad(max))
    case MoreLoad(max) =>
      WithPc(s, t, More(s.count, max))
    case MoreCas(max, seen) =>
      if c.Alternative? then WithPc(s, t, More(s.count, max)) else Grab(s, t, seen, max, Idle, More(s.count, max))
    case SignalAdd(n) =>
      var toRelease := if -s.count < n then -s.count else n;
      WithPc(s, t, if toRelease > 0 then Release(toRelease)
        else Idle).(count := s.count + n, signaled := s.signaled + n)
    case Release(n) =>
      WithPc(s, t, if n > 1 then Release(n - 1) else Idle).(permits := s.permits + 1)
  }

  // -------------------------------------------------------------- invariant

  /** A waiter holds the unit it subtracted until it acquires it or gives it back. */
  function Waiting(p: Pc): nat {
    if p.KernelWait? || p.UndoLoad? || p.UndoTry? || p.UndoCas? then 1 else 0
  }

  /** Posts a signaller still owes the kernel semaphore. */
  function Owed(p: Pc): nat { if p.Release? then p.n else 0 }

  function Waiters(ts: seq<Pc>): nat {
    if ts == [] then 0 else Waiting(ts[0]) + Waiters(ts[1..])
  }

  function Releasing(ts: seq<Pc>): nat {
    if ts == [] then 0 else Owed(ts[0]) + Releasing(ts[1..])
  }

  lemma {:induction false} SumsUpdate(ts: seq<Pc>, t: nat, p: Pc)
    requires t < |ts|
    ensures Waiters(ts[t := p]) == Waiters(ts) - Waiting(ts[t]) + Waiting(p)
    ensures Releasing(ts[t := p]) == Releasing(ts) - Owed(ts[t]) + Owed(p)
    ensures Waiters(ts) >= Waiting(ts[t]) && Releasing(ts) >= Owed(ts[t])
  {
    if t == 0 {
      assert ts[t := p][1..] == ts[1..];
    } else {
      assert ts[t := p][1..] == ts[1..][t - 1 := p];
      SumsUpdate(ts[1..], t - 1, p);
    }
  }

  lemma {:induction false} NoneWaiting(ts: seq<Pc>)
    requires forall t :: 0 <= t < |ts| ==> Waiting(ts[t]) == 0 && Owed(ts[t]) == 0
    ensures Waiters(ts) == 0 && Releasing(ts) == 0
  {
    if ts != [] { NoneWaiting(ts[1..]); }
  }

  /** Blocked waiters, less kernel permits, less posts still to come, is how far
      the counter stands below zero; and every unit there ever was is in the
      counter, acquired, or held by a waiter. */
  ghost predicate Inv(s: State) {
    && Shape(s)
    && Waiters(s.threads) - s.permits - Releasing(s.threads) == Clamp(-s.count)
    && s.initial + s.signaled == s.count + s.acquired + Waiters(s.threads)
  }

  ghost predicate Init(s: State) {
    && s.count == s.initial && s.permits == 0 && s.signaled == 0 && s.acquired == 0
    && forall t :: 0 <= t < |s.threads| ==> s.threads[t] == Idle
  }

  lemma InitInv(s: State)
    requires Init(s)
    ensures Inv(s)
  {
    NoneWaiting(s.threads);
  }

  predicate TakesFromCount(p: Pc) {
    p.TryLoad? || p.TryCas? || p.SpinLoad? || p.SpinCas? || p.MoreLoad? || p.MoreCas?
  }

  lemma Moved(s: State, t: nat, p: Pc)
    requires Inv(s) && t < |s.threads| && PcShape(p)
    requires Waiting(s.threads[t]) == Waiting(p) && Owed(s.threads[t]) == Owed(p)
    ensures Inv(WithPc(s, t, p))
  {
    SumsUpdate(s.threads, t, p);
  }

  lemma Grabbed(s: State, t: nat, seen: int, max: nat, won: Pc, lost: Pc)
    requires Inv(s) && t < |s.threads| && seen > 0
    requires TakesFromCount(s.threads[t]) && PcShape(won) && PcShape(lost)
    requires Waiting(won) == Waiting(lost) == Owed(won) == Owed(lost) == 0
    ensures Inv(Grab(s, t, seen, max, won, lost))
  {
    SumsUpdate(s.threads, t, won);
    SumsUpdate(s.threads, t, lost);
  }

  lemma TakeKeepsInv(s: State, t: nat, c: Call)
    requires Inv(s) && t < |s.threads| && TakesFromCount(s.threads[t])
    ensures Inv(Next(s, t, c))
  {
    assert PcShape(s.threads[t]);
    match s.threads[t] {
      case TryCas(max, block, timed, seen) =>
        Grabbed(s, t, seen, max, Idle, Try(s.count, max, block, timed));
        Moved(s, t, Try(s.count, max, block, timed));
      case SpinCas(max, timed, seen) =>
        Grabbed(s, t, seen, max, Idle, SpinLoad(max, timed));
      case MoreCas(max, seen) =>
        Grabbed(s, t, seen, max, Idle, More(s.count, max));
        Moved(s, t, More(s.count, max));
      case TryLoad(max, block, timed) =>
        Moved(s, t, Try(s.count, max, block, timed));
      case SpinLoad(max, timed) =>
        Moved(s, t, Next(s, t, c).threads[t]);
      case MoreLoad(max) =>
        Moved(s, t, More(s.count, max));
    }
  }

  lemma WaitKeepsInv(s: State, t: nat, c: Call)
    requires Inv(s) && t < |s.threads| && (s.threads[t].Decrement? || s.threads[t].KernelWait?)
    ensures Inv(Next(s, t, c))
  {
    SumsUpdate(s.threads, t, Next(s, t, c).threads[t]);
  }

  lemma UndoKeepsInv(s: State, t: nat, c: Call)
    requires Inv(s) && t < |s.threads| && (s.threads[t].UndoLoad? || s.threads[t].UndoTry? || s.threads[t].UndoCas?)
    ensures Inv(Next(s, t, c))
  {
    SumsUpdate(s.threads, t, Next(s, t, c).threads[t]);
  }

  lemma SignalKeepsInv(s: State, t: nat, c: Call)
    requires Inv(s) && t < |s.threads| && (s.threads[t].SignalAdd? || s.threads[t].Release?)
    ensures Inv(Next(s, t, c))
  {
    SumsUpdate(s.threads, t, Next(s, t, c).threads[t]);
  }

  lemma CallKeepsInv(s: State, t: nat, c: Call)
    requires Inv(s) && t < |s.threads| && s.threads[t].Idle?
    ensures Inv(Next(s, t, c))
  {
    if Next(s, t, c) != s { Moved(s, t, Next(s, t, c).threads[t]); }
  }

  lemma StepKeepsInv(s: State, t: nat, c: Call)
    requires Inv(s) && t < |s.threads|
    ensures Inv(Next(s, t, c))
  {
    var p := s.threads[t];
    if TakesFromCount(p) { TakeKeepsInv(s, t, c); }
    else if p.Decrement? || p.KernelWait? { WaitKeepsInv(s, t, c); }
    else if p.UndoLoad? || p.UndoTry? || p.UndoCas? { UndoKeepsInv(s, t, c); }
    else if p.Idle? { CallKeepsInv(s, t, c); }
    else { SignalKeepsInv(s, t, c); }
  }

  // ------------------------------------------------------------ whole runs

  datatype Event = Event(t: nat, c: Call)

  ghost function Run(s: State, es: seq<Event>): (r: State)
    requires Inv(s)
    ensures Inv(r) && |r.threads| == |s.threads|
    decreases |es|
  {
    if es == [] then s
    else if es[0].t < |s.threads| then
      StepKeepsInv(s, es[0].t, es[0].c);
      Run(Next(s, es[0].t, es[0].c), es[1..])
    else Run(s, es[1..])
  }

  /** In every interleaving, timeouts included, acquisitions never exceed the
      units made available, and the shortfall is exactly what can still be taken. */
  lemma AcquiredNeverExceedsSignaled(s0: State, es: seq<Event>)
    requires Init(s0)
    ensures Inv(s0)
    ensures var s := Run(s0, es);
      && s.acquired + Clamp(s.count) + s.permits + Releasing(s.threads) == s.initial + s.signaled
      && Waiters(s.threads) - s.permits - Releasing(s.threads) == Clamp(-s.count)
  {
    InitInv(s0);
  }

  /** No wakeup is lost: once every signal call has returned, a waiter is left
      blocked without a permit only if every unit signaled has been acquired. */
  lemma NoLostWakeup(s0: State, es: seq<Event>)
    requires Init(s0) && Inv(s0)
    requires forall t :: 0 <= t < |s0.threads| ==> !Run(s0, es).threads[t].Release?
    ensures var s := Run(s0, es);
      Waiters(s.threads) > 0 && s.permits == 0 ==>
        s.count == 0 - Waiters(s.threads) && s.acquired == s.initial + s.signaled
    ensures var s := Run(s0, es);
      s.count >= 0 ==> Waiters(s.threads) == s.permits
  {
    var s := Run(s0, es);
    NoReleases(s.threads);
  }

  lemma {:induction false} NoReleases(ts: seq<Pc>)
    requires forall t :: 0 <= t < |ts| ==> !ts[t].Release?
    ensures Releasing(ts) == 0
  {
    if ts != [] { NoReleases(ts[1..]); }
  }

  /** A waiter that has timed out and finds the counter non-negative is owed a
      permit: the units it gives up on are there, or on their way. */
  lemma TimedOutWaiterIsOwedAPermit(s: State, t: nat)
    requires Inv(s) && t < |s.threads| && s.threads[t].UndoTry? && s.count >= 0
    ensures s.permits + Releasing(s.threads) >= 1
  {
    SumsUpdate(s.threads, t, Idle);
  }

  /** Giving a unit back leaves everyone else's accounts as they were. */
  lemma UndoIsNeutral(s: State, t: nat, c: Call)
    requires Inv(s) && t < |s.threads| && s.threads[t].UndoCas? && s.count == s.threads[t].seen && s.count < 0
    ensures var s' := Next(s, t, c);
      && s'.acquired == s.acquired && s'.permits == s.permits && s'.count == s.count + 1
      && Waiters(s'.threads) == Waiters(s.threads) - 1
  {
    SumsUpdate(s.threads, t, Idle);
  }

  // --------------------------------------------------- what each call gets

  function Least(a: int, b: int): int { if a < b then a else b }

  /** A compare_exchange that wins takes as many units as the call may still take
      of those it has seen, and the call is over. */
  lemma WinningTryTakes(s: State, t: nat, c: Call)
    requires Shape(s) && t < |s.threads| && (s.threads[t].TryCas? || s.threads[t].SpinCas? || s.threads[t].MoreCas?)
    requires s.count == s.threads[t].seen && (c.Alternative? ==> s.threads[t].SpinCas?)
    ensures var n := Least(s.threads[t].max, s.count);
      Next(s, t, c) == WithPc(s, t, Idle).(count := s.count - n, acquired := s.acquired + n)
  {
    assert PcShape(s.threads[t]);
  }

  /** The thread's state after its compare_exchange has won alone. */
  function TookLeast(s: State, t: nat, max: nat): State
    requires t < |s.threads| && s.count >= 0
  {
    WithPc(s, t, Idle).(count := s.count - Least(max, s.count), acquired := s.acquired + Least(max, s.count))
  }

  /** A try that nobody disturbs (tryWait, tryWaitMany, the first try of a wait, one
      turn of its spinning, the second part of a wait for many) takes what it may of
      what is there. */
  lemma TryAlone(s: State, t: nat)
    requires Inv(s) && t < |s.threads| && s.count > 0
    requires s.threads[t].TryLoad? || s.threads[t].SpinLoad? || s.threads[t].MoreLoad?
    ensures var s1 := Next(s, t, Advance);
      Inv(s1) && |s1.threads| == |s.threads| && Next(s1, t, Advance) == TookLeast(s, t, s.threads[t].max)
  {
    StepKeepsInv(s, t, Advance);
    var s1 := Next(s, t, Advance);
    WinningTryTakes(s1, t, Advance);
    assert WithPc(s1, t, Idle).threads == WithPc(s, t, Idle).threads;
  }

  /** ... and where nothing is there it leaves everything as it is: a try returns, a
      wait spins and then gives up its spinning to block. */
  lemma TryFindsNothing(s: State, t: nat)
    requires Inv(s) && t < |s.threads| && s.count <= 0
    ensures s.threads[t].TryLoad? ==> var TryLoad(max, block, timed) := s.threads[t];
      Next(s, t, Advance) == WithPc(s, t, if block && max > 0 then SpinLoad(max, timed) else Idle)
    ensures s.threads[t].MoreLoad? ==> Next(s, t, Advance) == WithPc(s, t, Idle)
    ensures s.threads[t].SpinLoad? ==> var SpinLoad(max, timed) := s.threads[t];
      Next(s, t, Advance) == s && Next(s, t, Alternative) == WithPc(s, t, Decrement(max, timed))
    ensures s.threads[t].Decrement? ==> var Decrement(max, timed) := s.threads[t];
      Next(s, t, Advance) == WithPc(s, t, KernelWait(max, timed)).(count := s.count - 1)
  {
  }

  predicate Trying(p: Pc) { p.TryLoad? || p.TryCas? || p.MoreLoad? || p.MoreCas? }

  predicate Blocking(p: Pc) {
    p.SpinLoad? || p.SpinCas? || p.Decrement? || p.KernelWait? || p.UndoLoad? || p.UndoTry? || p.UndoCas?
  }

  /** Whatever others do, a try comes away with nothing only at an access that finds
      nothing there, and a wait only by giving back the unit that it still owed. */
  lemma EmptyHandedMeansNone(s: State, t: nat, c: Call)
    requires Shape(s) && t < |s.threads|
    ensures var p, s' := s.threads[t], Next(s, t, c);
      && |s'.threads| == |s.threads|
      && (Trying(p) && p.max > 0 && s'.acquired == s.acquired && !Trying(s'.threads[t]) ==> s.count <= 0)
      && (Blocking(p) && s'.acquired == s.acquired && s'.threads[t].Idle? ==>
        p.UndoCas? && s.count < 0 && s'.count == s.count + 1)
  {
    assert PcShape(s.threads[t]);
  }

  /** A waiter whose permit is there takes it, and has one unit; in a wait for many
      it goes on to take what more there is. */
  lemma PermitAlone(s: State, t: nat)
    requires Inv(s) && t < |s.threads| && s.permits > 0 && s.threads[t].KernelWait?
    ensures var s' := Next(s, t, Advance);
      s' == WithPc(s, t, GotOne(s.threads[t].max)).(permits := s.permits - 1, acquired := s.acquired + 1)
      && s'.threads[t] == if s.threads[t].max > 1 then MoreLoad(s.threads[t].max - 1) else Idle
  {
  }

  /** After a time-out that nobody disturbs: the unit is given back, or the permit
      that has come meanwhile is taken. */
  lemma TimeOutAlone(s: State, t: nat)
    requires Inv(s) && t < |s.threads| && s.threads[t].UndoLoad? && (s.count >= 0 ==> s.permits > 0)
    ensures var s1 := Next(s, t, Advance);
      Inv(s1) && |s1.threads| == |s.threads| && Next(s1, t, Advance) ==
        if s.count < 0 then WithPc(s, t, Idle).(count := s.count + 1)
        else WithPc(s, t, GotOne(s.threads[t].max)).(permits := s.permits - 1, acquired := s.acquired + 1)
  {
    StepKeepsInv(s, t, Advance);
    var max := s.threads[t].max;
    var s1 := WithPc(s, t, if s.count >= 0 then UndoTry(max) else UndoCas(max, s.count));
    assert Next(s, t, Advance) == s1;
    assert WithPc(s1, t, Idle).threads == WithPc(s, t, Idle).threads;
    assert WithPc(s1, t, GotOne(max)).threads == WithPc(s, t, GotOne(max)).threads;
  }

  /** n accesses of thread t with nobody in between. */
  ghost function Alone(s: State, t: nat, n: nat): (r: State)
    requires Inv(s) && t < |s.threads|
    ensures Inv(r) && |r.threads| == |s.threads|
    decreases n
  {
    if n == 0 then s else StepKeepsInv(s, t, Advance); Alone(Next(s, t, Advance), t, n - 1)
  }

  lemma {:induction false} ReleaseAlone(s: State, t: nat, n: nat)
    requires Inv(s) && t < |s.threads| && s.threads[t] == Release(n) && n > 0
    ensures Alone(s, t, n) == WithPc(s, t, Idle).(permits := s.permits + n)
    decreases n
  {
    StepKeepsInv(s, t, Advance);
    var s1 := Next(s, t, Advance);
    assert Alone(s, t, n) == Alone(s1, t, n - 1);
    if n > 1 {
      ReleaseAlone(s1, t, n - 1);
      assert WithPc(s1, t, Idle).threads == WithPc(s, t, Idle).threads;
    }
  }

  /** signal(n), not disturbed: n units more, and one permit for each waiter that
      they cover. */
  lemma SignalAlone(s: State, t: nat, n: nat)
    requires Inv(s) && t < |s.threads| && s.threads[t] == SignalAdd(n)
    ensures var k := Clamp(Least(-s.count, n));
      Alone(s, t, 1 + k) == WithPc(s, t, Idle).(count := s.count + n, signaled := s.signaled + n,
        permits := s.permits + k)
  {
    var k := Clamp(Least(-s.count, n));
    StepKeepsInv(s, t, Advance);
    var s1 := Next(s, t, Advance);
    assert Alone(s, t, 1 + k) == Alone(s1, t, k);
    if k > 0 {
      ReleaseAlone(s1, t, k);
      assert WithPc(s1, t, Idle).threads == WithPc(s, t, Idle).threads;
    }
  }

  /** Bookkeeping: a waiting call, by thread `t`, and the units it has got. */
  datatype WaitCall = WaitCall(t: nat, max: nat, block: bool, timed: bool, got: nat, done: bool)

  /** All waiting calls made so far, and which of them each thread is in. */
  datatype Ledger = Ledger(calls: seq<WaitCall>, current: seq<nat>)

  predicate InWait(p: Pc) { !p.Idle? && !p.SignalAdd? && !p.Release? }

  function Began(l: Ledger, t: nat, max: nat, block: bool, timed: bool): Ledger
    requires t < |l.current|
  {
    Ledger(l.calls + [WaitCall(t, max, block, timed, 0, false)], l.current[t := |l.calls|])
  }

  /** Thread t's step from s to s', entered in the ledger. */
  function Entered(l: Ledger, s: State, s': State, t: nat, c: Call): Ledger
    requires t < |s.threads| == |l.current| == |s'.threads|
  {
    if s.threads[t].Idle? then
      match c
      case CallTry(max) => Began(l, t, max, false, false)
      case CallWait(max, timed) => Began(l, t, max, true, timed)
      case _ => l
    else if InWait(s.threads[t]) && l.current[t] < |l.calls| && s'.acquired >= s.acquired then
      var w := l.calls[l.current[t]];
      l.(calls := l.calls[l.current[t] := w.(got := w.got + (s'.acquired - s.acquired), done := s'.threads[t].Idle?)])
    else l
  }

  function SumGot(ws: seq<WaitCall>): nat {
    if ws == [] then 0 else ws[0].got + SumGot(ws[1..])
  }

  lemma {:induction false} SumGotUpdate(ws: seq<WaitCall>, k: nat, w: WaitCall)
    requires k < |ws|
    ensures SumGot(ws[k := w]) == SumGot(ws) - ws[k].got + w.got
  {
    if k == 0 {
      assert ws[k := w][1..] == ws[1..];
    } else {
      assert ws[k := w][1..] == ws[1..][k - 1 := w];
      SumGotUpdate(ws[1..], k - 1, w);
    }
  }

  lemma {:induction false} SumGotAppend(ws: seq<WaitCall>, w: WaitCall)
    ensures SumGot(ws + [w]) == SumGot(ws) + w.got
  {
    if ws == [] {
      assert SumGot([w]) == w.got + SumGot([w][1..]);
      assert ws + [w] == [w];
    } else {
      assert (ws + [w])[1..] == ws[1..] + [w];
      SumGotAppend(ws[1..], w);
    }
  }

  /** Where in the code a call can be, by what it asked for and has got. */
  predicate CallAt(p: Pc, w: WaitCall) {
    match p
    case TryLoad(max, block, timed) => w == WaitCall(w.t, max, block, timed, 0, false)
    case TryCas(max, block, timed, _) => w == WaitCall(w.t, max, block, timed, 0, false)
    case SpinLoad(max, timed) => w == WaitCall(w.t, max, true, timed, 0, false)
    case SpinCas(max, timed, _) => w == WaitCall(w.t, max, true, timed, 0, false)
    case Decrement(max, timed) => w == WaitCall(w.t, max, true, timed, 0, false)
    case KernelWait(max, timed) => w == WaitCall(w.t, max, true, timed, 0, false)
    case UndoLoad(max) => w == WaitCall(w.t, max, true, true, 0, false)
    case UndoTry(max) => w == WaitCall(w.t, max, true, true, 0, false)
    case UndoCas(max, _) => w == WaitCall(w.t, max, true, true, 0, false)
    case MoreLoad(max) => w == WaitCall(w.t, max + 1, true, w.timed, 1, false)
    case MoreCas(max, _) => w == WaitCall(w.t, max + 1, true, w.timed, 1, false)
    case _ => true
  }

  /** No call gets more than it asked for, and a wait without a time-out does not
      end with nothing. */
  predicate CallOk(w: WaitCall) {
    w.got <= w.max && (w.done && w.block && !w.timed && w.max > 0 ==> w.got > 0)
  }

  ghost predicate LedgerOk(s: State, l: Ledger) {
    && |l.current| == |s.threads| && SumGot(l.calls) == s.acquired
    && (forall k :: 0 <= k < |l.calls| ==> CallOk(l.calls[k]))
    && (forall t :: 0 <= t < |s.threads| && InWait(s.threads[t]) ==>
      l.current[t] < |l.calls| && l.calls[l.current[t]].t == t && CallAt(s.threads[t], l.calls[l.current[t]]))
  }

  /** What a step does to the call it belongs to. */
  lemma StepOfCall(s: State, t: nat, c: Call, w: WaitCall)
    requires Shape(s) && t < |s.threads| && InWait(s.threads[t]) && CallAt(s.threads[t], w) && CallOk(w)
    ensures var s' := Next(s, t, c);
      && |s'.threads| == |s.threads| && s'.threads == s.threads[t := s'.threads[t]] && s'.acquired >= s.acquired
      && var w' := w.(got := w.got + (s'.acquired - s.acquired), done := s'.threads[t].Idle?);
         CallOk(w') && CallAt(s'.threads[t], w') && (InWait(s'.threads[t]) || s'.threads[t].Idle?)
  {
    assert PcShape(s.threads[t]);
  }

  lemma StepOutsideCalls(s: State, t: nat, c: Call)
    requires Shape(s) && t < |s.threads| && !InWait(s.threads[t])
    ensures var s' := Next(s, t, c);
      && |s'.threads| == |s.threads| && s'.threads == s.threads[t := s'.threads[t]] && s'.acquired == s.acquired
      && (InWait(s'.threads[t]) ==> s.threads[t].Idle? && (c.CallTry? || c.CallWait?))
      && (InWait(s'.threads[t]) ==> s'.threads[t] == TryLoad(c.max, c.CallWait?, c.CallWait? && c.timed))
      && (s.threads[t].Idle? && (c.CallTry? || c.CallWait?) ==> InWait(s'.threads[t]))
  {
  }

  lemma StepKeepsLedger(s: State, l: Ledger, t: nat, c: Call)
    requires Shape(s) && LedgerOk(s, l) && t < |s.threads|
    ensures var s' := Next(s, t, c); |s'.threads| == |s.threads| && LedgerOk(s', Entered(l, s, s', t, c))
  {
    var s' := Next(s, t, c);
    if InWait(s.threads[t]) {
      var k := l.current[t];
      StepOfCall(s, t, c, l.calls[k]);
      SumGotUpdate(l.calls, k, Entered(l, s, s', t, c).calls[k]);
    } else {
      StepOutsideCalls(s, t, c);
      if InWait(s'.threads[t]) {
        SumGotAppend(l.calls, WaitCall(t, c.max, c.CallWait?, c.CallWait? && c.timed, 0, false));
      }
    }
  }

  /** The ledger of a run. */
  ghost function Ledgers(s: State, l: Ledger, es: seq<Event>): (r: Ledger)
    requires Inv(s) && |l.current| == |s.threads|
    ensures |r.current| == |s.threads|
    decreases |es|
  {
    if es == [] then l
    else if es[0].t < |s.threads| then
      StepKeepsInv(s, es[0].t, es[0].c);
      var s' := Next(s, es[0].t, es[0].c);
      Ledgers(s', Entered(l, s, s', es[0].t, es[0].c), es[1..])
    else Ledgers(s, l, es[1..])
  }

  lemma {:induction false} RunKeepsLedger(s: State, l: Ledger, es: seq<Event>)
    requires Inv(s) && LedgerOk(s, l)
    ensures LedgerOk(Run(s, es), Ledgers(s, l, es))
    decreases |es|
  {
    if es != [] {
      if es[0].t < |s.threads| {
        StepKeepsInv(s, es[0].t, es[0].c);
        StepKeepsLedger(s, l, es[0].t, es[0].c);
        var s' := Next(s, es[0].t, es[0].c);
        RunKeepsLedger(s', Entered(l, s, s', es[0].t, es[0].c), es[1..]);
      } else {
        RunKeepsLedger(s, l, es[1..]);
      }
    }
  }

  /** In any run: the units that the calls have got add up to those acquired; no
      call gets more than it asked for; and a wait without a time-out ends with at
      least one, so that wait() ends with exactly one. */
  lemma EachCallGetsItsUnits(s0: State, es: seq<Event>)
    requires Init(s0)
    ensures Inv(s0)
    ensures var l := Ledgers(s0, Ledger([], seq(|s0.threads|, _ => 0)), es);
      && SumGot(l.calls) == Run(s0, es).acquired
      && (forall k :: 0 <= k < |l.calls| ==> l.calls[k].got <= l.calls[k].max)
      && (forall k :: 0 <= k < |l.calls| && l.calls[k].done && l.calls[k].block && !l.calls[k].timed ==>
           l.calls[k].max == 0 || l.calls[k].got > 0)
  {
    InitInv(s0);
    RunKeepsLedger(s0, Ledger([], seq(|s0.threads|, _ => 0)), es);
  }

  // ------------------------------------------------------ the code, in place

  /** m_count and m_sema, changed in place. */
  class LightweightSemaphore {
    var count: int
    var permits: nat
    var threads: seq<Pc>
    ghost var initial: nat
    ghost var signaled: nat
    ghost var acquired: nat

    ghost function View(): State
      reads this
    {
      State(count, permits, threads, initial, signaled, acquired)
    }

    constructor (initialCount: nat, users: nat)
      ensures Init(View()) && count == initialCount && |threads| == users
    {
      count, permits, initial, signaled, acquired := initialCount, 0, initialCount, 0, 0;
      threads := seq(users, _ => Idle);
    }

    /** tryWait, tryWaitMany, and the spinning part of the waits; `spurious`
        makes a weak compare_exchange fail, or ends the spinning. */
    method TakeFromCount(t: nat, spurious: bool)
      requires Inv(View()) && t < |threads| && TakesFromCount(threads[t])
      modifies this
      ensures View() == Next(old(View()), t, if spurious then Alternative else Advance) && Inv(View())
    {
      StepKeepsInv(View(), t, if spurious then Alternative else Advance);
      match threads[t] {
        case TryLoad(max, block, timed) =>
          threads := threads[t := Try(count, max, block, timed)];
        case TryCas(max, block, timed, seen) =>
          var took := !spurious && count == seen;
          if took { TakeUnits(seen, max); }
          threads := threads[t := if took then Idle else Try(count, max, block, timed)];
        case SpinLoad(max, timed) =>
          threads := threads[t := if spurious then Decrement(max, timed)
            else if count > 0 then SpinCas(max, timed, count) else SpinLoad(max, timed)];
        case SpinCas(max, timed, seen) =>
          var took := count == seen;
          if took { TakeUnits(seen, max); }
          threads := threads[t := if took then Idle else SpinLoad(max, timed)];
        case MoreLoad(max) =>
          threads := threads[t := More(count, max)];
        case MoreCas(max, seen) =>
          var took := !spurious && count == seen;
          if took { TakeUnits(seen, max); }
          threads := threads[t := if took then Idle else More(count, max)];
      }
    }

    method TakeUnits(seen: int, max: nat)
      requires seen > 0
      modifies this`count, this`acquired
      ensures count == seen - Least(max, seen) && acquired == old(acquired) + Least(max, seen)
    {
      count := if seen > max then seen - max else 0;
      acquired := acquired + (seen - count);
    }

    /** The blocking part of a wait, and taking the unit back after a timeout. */
    method Block(t: nat, timeout: bool)
      requires Inv(View()) && t < |threads|
      requires var p := threads[t]; p.Decrement? || p.KernelWait? || p.UndoLoad? || p.UndoTry? || p.UndoCas?
      modifies this
      ensures View() == Next(old(View()), t, if timeout then Alternative else Advance) && Inv(View())
    {
      StepKeepsInv(View(), t, if timeout then Alternative else Advance);
      match threads[t] {
        case Decrement(max, timed) =>
          if count > 0 { acquired := acquired + 1; }
          threads := threads[t := if count > 0 then GotOne(max) else KernelWait(max, timed)];
          count := count - 1;
        case KernelWait(max, timed) =>
          if timed && timeout {
            threads := threads[t := UndoLoad(max)];
          } else if permits > 0 {
            permits, acquired := permits - 1, acquired + 1;
            threads := threads[t := GotOne(max)];
          }
        case UndoLoad(max) =>
          threads := threads[t := if count >= 0 then UndoTry(max) else UndoCas(max, count)];
        case UndoTry(max) =>
          if permits > 0 {
            permits, acquired := permits - 1, acquired + 1;
            threads := threads[t := GotOne(max)];
          } else {
            threads := threads[t := UndoLoad(max)];
          }
        case UndoCas(max, seen) =>
          if count == seen {
            count := seen + 1;
            threads := threads[t := Idle];
          } else {
            threads := threads[t := UndoLoad(max)];
          }
      }
    }

    method Signal(t: nat)
      requires Inv(View()) && t < |threads| && (threads[t].SignalAdd? || threads[t].Release?)
      modifies this
      ensures View() == Next(old(View()), t, Advance) && Inv(View())
    {
      StepKeepsInv(View(), t, Advance);
      match threads[t] {
        case SignalAdd(n) =>
          var toRelease := if -count < n then -count else n;
          count, signaled := count + n, signaled + n;
          threads := threads[t := if toRelease > 0 then Release(toRelease) else Idle];
        case Release(n) =>
          permits := permits + 1;
          threads := threads[t := if n > 1 then Release(n - 1) else Idle];
      }
    }
  }
}
