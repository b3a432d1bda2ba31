/**
 The optimistic dequeue protocol of one producer's sub-queue.

 Consumers take part through four shared counters.  `dequeue` and
 `dequeue_bulk` follow the same protocol, with `max` equal to 1 in `dequeue`.
 The counters are unbounded here.
 */
module DequeueCounters {

  /** A consumer's next access, with its locals. */
  datatype Pc =
    | Idle
    | LoadTail(max: nat)                                    // tailIndex.load
    | LoadOvercommit(max: nat, tail: nat)                   // dequeueOvercommit.load
    | LoadOptimistic(max: nat, tail: nat, over: nat)        // dequeueOptimisticCount.load
    | AddOptimistic(desired: nat, over: nat)                // dequeueOptimisticCount.fetch_add
    | ReloadTail(desired: nat, over: nat, my: nat)          // tailIndex.load
    | AddOvercommit(excess: nat, actual: nat, more: bool, my: nat)  // dequeueOvercommit.fetch_add
    | AddHead(actual: nat, my: nat)                         // headIndex.fetch_add
    | Got(first: nat, count: nat)                           // owns indices first .. first + count

  /** Bookkeeping only: what became of each unit of dequeueOptimisticCount. */
  datatype Fate = Pending(t: nat) | Approved | Failed

  datatype State = State(
    tail: nat, head: nat, optimistic: nat, overcommit: nat,
    threads: seq<Pc>,
    fate: seq<Fate>)

  datatype Call = CallDequeue(max: nat) | Finish | Advance

  function Min(a: int, b: int): int { if a < b then a else b }

  function SetRange(f: seq<Fate>, lo: nat, n: nat, v: Fate): (g: seq<Fate>)
    requires lo + n <= |f|
    ensures |g| == |f|
    ensures forall i :: 0 <= i < |f| ==> g[i] == if lo <= i < lo + n then v else f[i]
  {
    f[..lo] + seq(n, _ => v) + f[lo + n..]
  }

  ghost predicate TicketsInRange(s: State) {
    && |s.fate| == s.optimistic
    && forall t :: 0 <= t < |s.threads| ==>
      var p := s.threads[t];
      && (p.ReloadTail? ==> p.my + p.desired <= s.optimistic)
      && (p.AddOvercommit? ==> p.my + p.actual + p.excess <= s.optimistic)
      && (p.AddHead? ==> p.my + p.actual <= s.optimistic)
  }

  /** One access by consumer t. */
  ghost function Next(s: State, t: nat, c: Call): State
    requires TicketsInRange(s) && t < |s.threads|
  {
    match s.threads[t]
    case Idle =>
      if c.CallDequeue? then s.(threads := s.threads[t := LoadTail(c.max)]) else s
    case LoadTail(max) =>
      s.(threads := s.threads[t := LoadOvercommit(max, s.tail)])
    case LoadOvercommit(max, tail) =>
      s.(threads := s.threads[t := LoadOptimistic(max, tail, s.overcommit)])
    case LoadOptimistic(max, tail, over) =>
      var available := tail - (s.optimistic - over);
      s.(threads := s.threads[t := if 0 < available then AddOptimistic(Min(available, max), over) else Idle])
    case AddOptimistic(desired, over) =>
      s.(optimistic := s.optimistic + desired,
         threads := s.threads[t := ReloadTail(desired, over, s.optimistic)],
         fate := s.fate + seq(desired, _ => Pending(t)))
    case ReloadTail(desired, over, my) =>
      var available := s.tail - (my - over);
      if 0 < available then
        var actual: nat := Min(desired, available);
        s.(threads := s.threads[t := if actual < desired then AddOvercommit(desired - actual, actual, true, my)
          else AddHead(actual, my)],
           fate := SetRange(s.fate, my, actual, Approved))
      else
        s.(threads := s.threads[t := AddOvercommit(desired, 0, false, my)])
    case AddOvercommit(excess, actual, more, my) =>
      s.(overcommit := s.overcommit + excess,
         threads := s.threads[t := if more then AddHead(actual, my) else Idle],
         fate := SetRange(s.fate, my + actual, excess, Failed))
    case AddHead(actual, my) =>
      s.(head := s.head + actual, threads := s.threads[t := Got(s.head, actual)])
    case Got(first, count) =>
      if c.Finish? then s.(threads := s.threads[t := Idle]) else s
  }

  /** The producer publishes n more elements. */
  function Publish(s: State, n: nat): State { s.(tail := s.tail + n) }

  // -------------------------------------------------------------- counting

  /** How many of the first k units met fate v. */
  function Count(f: seq<Fate>, k: nat, v: Fate): nat
    requires k <= |f|
  {
    if k == 0 then 0 else Count(f, k - 1, v) + if f[k - 1] == v then 1 else 0
  }

  lemma {:induction false} CountSetRange(f: seq<Fate>, lo: nat, n: nat, v: Fate, k: nat, w: Fate)
    requires lo + n <= |f| && k <= |f|
    requires forall i :: lo <= i < lo + n ==> f[i] != w
    ensures Count(SetRange(f, lo, n, v), k, w)
         == Count(f, k, w) + if v != w || k <= lo then 0 else Min(k, lo + n) - lo
  {
    if k > 0 { CountSetRange(f, lo, n, v, k - 1, w); }
  }

  lemma {:induction false} CountPrefix(f: seq<Fate>, g: seq<Fate>, k: nat, w: Fate)
    requires k <= |f| <= |g| && g[..k] == f[..k]
    ensures Count(f, k, w) == Count(g, k, w)
  {
    if k > 0 {
      assert f[..k][k - 1] == f[k - 1] && g[..k][k - 1] == g[k - 1];
      assert f[..k - 1] == f[..k][..k - 1] && g[..k - 1] == g[..k][..k - 1];
      CountPrefix(f, g, k - 1, w);
    }
  }

  lemma {:induction false} CountAppend(f: seq<Fate>, n: nat, p: Fate, w: Fate)
    requires p != w
    ensures Count(f + seq(n, _ => p), |f| + n, w) == Count(f, |f|, w)
  {
    var g := f + seq(n, _ => p);
    if n == 0 {
      CountPrefix(f, g, |f|, w);
    } else {
      var h := f + seq(n - 1, _ => p);
      CountAppend(f, n - 1, p, w);
      assert g[..|h|] == h[..|h|];
      CountPrefix(h, g, |h|, w);
    }
  }

  lemma {:induction false} CountBoth(f: seq<Fate>, k: nat)
    requires k <= |f|
    ensures Count(f, k, Approved) + Count(f, k, Failed) <= k
  {
    if k > 0 { CountBoth(f, k - 1); }
  }

  // ------------------------------------------------------ sums over threads

  /** Units thread state p has requested and not yet turned into head or overcommit. */
  function InFlight(p: Pc): nat {
    match p
    case ReloadTail(d, _, _) => d
    case AddOvercommit(e, a, _, _) => e + a
    case AddHead(a, _) => a
    case _ => 0
  }

  /** Units it has been told it may take from head. */
  function Cleared(p: Pc): nat {
    match p
    case AddOvercommit(_, a, _, _) => a
    case AddHead(a, _) => a
    case _ => 0
  }

  function SumInFlight(ts: seq<Pc>): nat {
    if ts == [] then 0 else InFlight(ts[0]) + SumInFlight(ts[1..])
  }

  function SumCleared(ts: seq<Pc>): nat {
    if ts == [] then 0 else Cleared(ts[0]) + SumCleared(ts[1..])
  }

  lemma {:induction false} SumsUpdate(ts: seq<Pc>, t: nat, p: Pc)
    requires t < |ts|
    ensures SumInFlight(ts[t := p]) == SumInFlight(ts) - InFlight(ts[t]) + InFlight(p)
    ensures SumCleared(ts[t := p]) == SumCleared(ts) - Cleared(ts[t]) + Cleared(p)
    ensures SumInFlight(ts) >= InFlight(ts[t]) && SumCleared(ts) >= Cleared(ts[t])
  {
    if t == 0 {
      assert ts[t := p][1..] == ts[1..];
    } else {
      assert ts[t := p][1..] == ts[1..][t - 1 := p];
      SumsUpdate(ts[1..], t - 1, p);
    }
  }

  lemma {:induction false} SumsIdle(ts: seq<Pc>)
    requires forall t :: 0 <= t < |ts| ==> InFlight(ts[t]) == 0
    ensures SumInFlight(ts) == 0
  {
    if ts != [] { SumsIdle(ts[1..]); }
  }

  // -------------------------------------------------------------- invariant

  /** Overcommit already counted when thread state p loaded it: all of it comes
      from units below any the thread will get. */
  ghost predicate ThreadOk(s: State, t: nat)
    requires TicketsInRange(s) && t < |s.threads|
  {
    match s.threads[t]
    case LoadOptimistic(_, _, over) => over <= s.overcommit
    case AddOptimistic(_, over) => over <= s.overcommit
    case ReloadTail(d, over, my) =>
      over <= Count(s.fate, my, Failed) && (forall k :: my <= k < my + d ==> s.fate[k] == Pending(t))
    case AddOvercommit(e, a, more, my) =>
      (!more ==> a == 0) && (forall k :: my + a <= k < my + a + e ==> s.fate[k] == Pending(t))
    case Got(first, count) => first + count <= s.head
    case _ => true
  }

  /** An approved unit k was approved because at most tail units could precede it. */
  ghost predicate ApprovedOk(s: State, k: nat)
    requires k < |s.fate|
  {
    s.fate[k] == Approved ==> k + 1 - Count(s.fate, k, Failed) <= s.tail
  }

  ghost predicate Disjoint(p: Pc, q: Pc) {
    p.Got? && q.Got? ==> p.first + p.count <= q.first || q.first + q.count <= p.first
  }

  ghost predicate Inv(s: State) {
    && TicketsInRange(s)
    && s.optimistic == s.head + s.overcommit + SumInFlight(s.threads)
    && s.overcommit == Count(s.fate, |s.fate|, Failed)
    && s.head + SumCleared(s.threads) == Count(s.fate, |s.fate|, Approved)
    && (forall t :: 0 <= t < |s.threads| ==> ThreadOk(s, t))
    && (forall k :: 0 <= k < |s.fate| ==> ApprovedOk(s, k))
    && (forall t, u :: 0 <= t < u < |s.threads| ==> Disjoint(s.threads[t], s.threads[u]))
  }

  ghost predicate Init(s: State) {
    && s.tail == s.head == s.optimistic == s.overcommit == 0
    && s.fate == []
    && forall t :: 0 <= t < |s.threads| ==> s.threads[t] == Idle
  }

  lemma {:induction false} SumClearedIdle(ts: seq<Pc>)
    requires forall t :: 0 <= t < |ts| ==> ts[t] == Idle
    ensures SumCleared(ts) == 0
  {
    if ts != [] { SumClearedIdle(ts[1..]); }
  }

  lemma InitInv(s: State)
    requires Init(s)
    ensures Inv(s)
  {
    SumsIdle(s.threads);
    SumClearedIdle(s.threads);
  }

  /** Approved units among the first k never exceed tail: look at the last one. */
  lemma {:induction false} ApprovedBound(s: State, k: nat)
    requires k <= |s.fate| && forall j :: 0 <= j < |s.fate| ==> ApprovedOk(s, j)
    ensures Count(s.fate, k, Approved) <= s.tail
  {
    if k > 0 {
      ApprovedBound(s, k - 1);
      if s.fate[k - 1] == Approved {
        assert ApprovedOk(s, k - 1);
        CountBoth(s.fate, k - 1);
      }
    }
  }

  /** The head never passes the tail, nor will it when every cleared claim is made. */
  lemma HeadBehindTail(s: State)
    requires Inv(s)
    ensures s.head + SumCleared(s.threads) <= s.tail
  {
    ApprovedBound(s, |s.fate|);
  }

  // ---------------------------------------------------------- preservation

  lemma PublishKeepsInv(s: State, n: nat)
    requires Inv(s)
    ensures Inv(Publish(s, n))
  {
    var s' := Publish(s, n);
    forall t | 0 <= t < |s'.threads| ensures ThreadOk(s', t) { assert ThreadOk(s, t); }
    forall k | 0 <= k < |s'.fate| ensures ApprovedOk(s', k) { assert ApprovedOk(s, k); }
  }

  /** Steps that move no counter. */
  lemma QuietStep(s: State, t: nat, c: Call)
    requires Inv(s) && t < |s.threads|
    requires InFlight(s.threads[t]) == 0 && !s.threads[t].AddOptimistic? && !s.threads[t].ReloadTail?
      && !s.threads[t].AddOvercommit? && !s.threads[t].AddHead?
    ensures Inv(Next(s, t, c))
  {
    var s' := Next(s, t, c);
    var p' := s'.threads[t];
    SumsUpdate(s.threads, t, p');
    assert ThreadOk(s, t);
    assert s' == s.(threads := s.threads[t := p']);
    forall u | 0 <= u < |s'.threads| ensures ThreadOk(s', u) { assert ThreadOk(s, u); }
    forall k | 0 <= k < |s'.fate| ensures ApprovedOk(s', k) { assert ApprovedOk(s, k); }
    forall u, w | 0 <= u < w < |s'.threads| ensures Disjoint(s'.threads[u], s'.threads[w]) {
      assert Disjoint(s.threads[u], s.threads[w]);
    }
  }

  lemma ClaimStep(s: State, t: nat, c: Call)
    requires Inv(s) && t < |s.threads| && s.threads[t].AddHead?
    ensures Inv(Next(s, t, c))
  {
    var s' := Next(s, t, c);
    var p' := s'.threads[t];
    SumsUpdate(s.threads, t, p');
    forall u | 0 <= u < |s'.threads| ensures ThreadOk(s', u) { assert ThreadOk(s, u); }
    forall k | 0 <= k < |s'.fate| ensures ApprovedOk(s', k) { assert ApprovedOk(s, k); }
    forall u, w | 0 <= u < w < |s'.threads| ensures Disjoint(s'.threads[u], s'.threads[w]) {
      assert Disjoint(s.threads[u], s.threads[w]) && ThreadOk(s, u) && ThreadOk(s, w);
    }
  }

  lemma RequestStep(s: State, t: nat, c: Call)
    requires Inv(s) && t < |s.threads| && s.threads[t].AddOptimistic?
    ensures Inv(Next(s, t, c))
  {
    var s' := Next(s, t, c);
    var d := s.threads[t].desired;
    SumsUpdate(s.threads, t, s'.threads[t]);
    CountAppend(s.fate, d, Pending(t), Approved);
    CountAppend(s.fate, d, Pending(t), Failed);
    forall k: nat | k <= |s.fate| ensures Count(s'.fate, k, Failed) == Count(s.fate, k, Failed) {
      assert s'.fate[..k] == s.fate[..k];
      CountPrefix(s.fate, s'.fate, k, Failed);
    }
    forall u | 0 <= u < |s'.threads| ensures ThreadOk(s', u) { assert ThreadOk(s, u); }
    forall k | 0 <= k < |s'.fate| ensures ApprovedOk(s', k) { if k < |s.fate| { assert ApprovedOk(s, k); } }
    forall u, w | 0 <= u < w < |s'.threads| ensures Disjoint(s'.threads[u], s'.threads[w]) {
      assert Disjoint(s.threads[u], s.threads[w]);
    }
  }

  /** Rewriting the pending units of thread t disturbs no other thread. */
  lemma RangeStep(s: State, s': State, t: nat, lo: nat, n: nat, v: Fate)
    requires Inv(s) && t < |s.threads| && TicketsInRange(s') && v != Pending(t)
    requires lo + n <= |s.fate| && forall k :: lo <= k < lo + n ==> s.fate[k] == Pending(t)
    requires !v.Pending?
    requires s'.fate == SetRange(s.fate, lo, n, v) && s'.tail == s.tail && s'.head == s.head
    requires s'.overcommit >= s.overcommit && |s'.threads| == |s.threads| && !s'.threads[t].Got?
    requires s'.threads == s.threads[t := s'.threads[t]]
    requires v == Approved ==> forall k :: lo <= k < lo + n ==> k + 1 - Count(s.fate, k, Failed) <= s.tail
    requires ThreadOk(s', t)
    ensures forall u :: 0 <= u < |s'.threads| ==> ThreadOk(s', u)
    ensures forall k :: 0 <= k < |s'.fate| ==> ApprovedOk(s', k)
    ensures forall u, w :: 0 <= u < w < |s'.threads| ==> Disjoint(s'.threads[u], s'.threads[w])
    ensures forall w: Fate :: !w.Pending? ==>
      Count(s'.fate, |s'.fate|, w) == Count(s.fate, |s.fate|, w) + if v == w then n else 0
  {
    forall k: nat | k <= |s.fate| ensures Count(s'.fate, k, Failed) >= Count(s.fate, k, Failed) {
      CountSetRange(s.fate, lo, n, v, k, Failed);
    }
    forall w: Fate | !w.Pending?
      ensures Count(s'.fate, |s'.fate|, w) == Count(s.fate, |s.fate|, w) + if v == w then n else 0
    {
      CountSetRange(s.fate, lo, n, v, |s.fate|, w);
    }
    forall u | 0 <= u < |s'.threads| ensures ThreadOk(s', u) {
      if u != t {
        assert s'.threads[u] == s.threads[u] && ThreadOk(s, u);
        forall k | 0 <= k < |s.fate| && s.fate[k] == Pending(u) ensures s'.fate[k] == Pending(u) {}
      }
    }
    forall k | 0 <= k < |s'.fate| ensures ApprovedOk(s', k) { assert ApprovedOk(s, k); }
    forall u, w | 0 <= u < w < |s'.threads| ensures Disjoint(s'.threads[u], s'.threads[w]) {
      assert Disjoint(s.threads[u], s.threads[w]);
    }
  }

  lemma {:induction false} CountMonotone(f: seq<Fate>, j: nat, k: nat, w: Fate)
    requires j <= k <= |f|
    ensures Count(f, j, w) <= Count(f, k, w)
  {
    if j < k { CountMonotone(f, j, k - 1, w); }
  }

  lemma ApproveStep(s: State, t: nat, c: Call)
    requires Inv(s) && t < |s.threads| && s.threads[t].ReloadTail?
    ensures Inv(Next(s, t, c))
  {
    var p := s.threads[t];
    var available := s.tail - (p.my - p.over);
    var n := if 0 < available then Min(p.desired, available) else 0;
    var q := Next(s, t, c).threads[t];
    assert available <= 0 ==> SetRange(s.fate, p.my, 0, Approved) == s.fate;
    assert Next(s, t, c) == s.(threads := s.threads[t := q], fate := SetRange(s.fate, p.my, n, Approved));
    assert ThreadOk(s, t);
    ApproveSome(s, t, n, q);
  }

  /** The first n of thread t's pending units are approved, the rest will fail. */
  lemma ApproveSome(s: State, t: nat, n: nat, q: Pc)
    requires Inv(s) && t < |s.threads| && s.threads[t].ReloadTail?
    requires var p := s.threads[t];
      && n <= p.desired && (n > 0 ==> n <= s.tail - (p.my - p.over))
      && (|| (q == AddHead(n, p.my) && n == p.desired)
          || (q.AddOvercommit? && q.excess == p.desired - n && q.actual == n && q.my == p.my && (!q.more ==> n == 0)))
    ensures Inv(s.(threads := s.threads[t := q], fate := SetRange(s.fate, s.threads[t].my, n, Approved)))
  {
    var p := s.threads[t];
    assert ThreadOk(s, t);
    var s' := s.(threads := s.threads[t := q], fate := SetRange(s.fate, p.my, n, Approved));
    SumsUpdate(s.threads, t, q);
    forall k | p.my <= k < p.my + n ensures k + 1 - Count(s.fate, k, Failed) <= s.tail {
      CountMonotone(s.fate, p.my, k, Failed);
    }
    RangeStep(s, s', t, p.my, n, Approved);
  }

  lemma FailStep(s: State, t: nat, c: Call)
    requires Inv(s) && t < |s.threads| && s.threads[t].AddOvercommit?
    ensures Inv(Next(s, t, c))
  {
    var s' := Next(s, t, c);
    var p := s.threads[t];
    assert ThreadOk(s, t);
    SumsUpdate(s.threads, t, s'.threads[t]);
    RangeStep(s, s', t, p.my + p.actual, p.excess, Failed);
  }

  lemma StepKeepsInv(s: State, t: nat, c: Call)
    requires Inv(s) && t < |s.threads|
    ensures Inv(Next(s, t, c))
  {
    match s.threads[t] {
      case AddOptimistic(_, _) => RequestStep(s, t, c);
      case ReloadTail(_, _, _) => ApproveStep(s, t, c);
      case AddOvercommit(_, _, _, _) => FailStep(s, t, c);
      case AddHead(_, _) => ClaimStep(s, t, c);
      case _ => QuietStep(s, t, c);
    }
  }

  // ------------------------------------------------------------ whole runs

  datatype Event = Consume(t: nat, c: Call) | Enqueue(n: nat)

  ghost function Run(s: State, es: seq<Event>): (r: State)
    requires Inv(s)
    ensures Inv(r)
    decreases |es|
  {
    if es == [] then s
    else match es[0]
      case Enqueue(n) => PublishKeepsInv(s, n); Run(Publish(s, n), es[1..])
      case Consume(t, c) =>
        if t < |s.threads| then StepKeepsInv(s, t, c); Run(Next(s, t, c), es[1..]) else Run(s, es[1..])
  }

  /** Any mix of dequeues and bulk dequeues, in any interleaving: the head never
      passes the tail, so every index handed out belongs to a published element,
      no index is handed to two consumers, and the optimistic count is exactly
      the head, the overcommit and the requests still in flight. */
  lemma IndicesHandedOutAreEnqueued(s0: State, es: seq<Event>)
    requires Init(s0)
    ensures Inv(s0)
    ensures var s := Run(s0, es);
      && s.head <= s.tail
      && s.optimistic == s.head + s.overcommit + SumInFlight(s.threads)
      && (forall t :: 0 <= t < |s.threads| && s.threads[t].Got? ==> s.threads[t].first + s.threads[t].count <= s.tail)
      && (forall t, u, i :: 0 <= t < |s.threads| && 0 <= u < |s.threads| && t != u && Owns(s.threads[t], i) ==>
        !Owns(s.threads[u], i))
  {
    InitInv(s0);
    var s := Run(s0, es);
    HeadBehindTail(s);
    forall t | 0 <= t < |s.threads| && s.threads[t].Got? ensures s.threads[t].first + s.threads[t].count <= s.tail {
      assert ThreadOk(s, t);
    }
    forall t, u, i | 0 <= t < |s.threads| && 0 <= u < |s.threads| && t != u && Owns(s.threads[t], i)
      ensures !Owns(s.threads[u], i)
    {
      if t < u { assert Disjoint(s.threads[t], s.threads[u]); } else { assert Disjoint(s.threads[u], s.threads[t]); }
    }
  }

  predicate Owns(p: Pc, i: int) { p.Got? && p.first <= i < p.first + p.count }

  /** Indices first .. first + count, taken by one advance of the head. */
  datatype Claim = Claim(first: nat, count: nat)

  predicate InClaim(c: Claim, x: nat) { c.first <= x < c.first + c.count }

  predicate Claimed(cs: seq<Claim>, x: nat) { exists i :: 0 <= i < |cs| && InClaim(cs[i], x) }

  /** The claims made in a run, in order. */
  ghost function ClaimsMade(s: State, es: seq<Event>): seq<Claim>
    requires Inv(s)
    decreases |es|
  {
    if es == [] then []
    else match es[0]
      case Enqueue(n) => PublishKeepsInv(s, n); ClaimsMade(Publish(s, n), es[1..])
      case Consume(t, c) =>
        if t >= |s.threads| then ClaimsMade(s, es[1..])
        else
          StepKeepsInv(s, t, c);
          ClaimOf(s, s.threads[t]) + ClaimsMade(Next(s, t, c), es[1..])
  }

  function ClaimOf(s: State, p: Pc): seq<Claim> {
    if p.AddHead? then [Claim(s.head, p.actual)] else []
  }

  /** One claim after the other, from index lo up to index hi, without gap or overlap. */
  predicate Tile(cs: seq<Claim>, lo: nat, hi: nat) {
    if cs == [] then lo == hi else cs[0].first == lo && Tile(cs[1..], lo + cs[0].count, hi)
  }

  lemma {:induction false} ClaimsTile(s: State, es: seq<Event>)
    requires Inv(s)
    ensures Tile(ClaimsMade(s, es), s.head, Run(s, es).head)
    decreases |es|
  {
    if es != [] {
      match es[0]
      case Enqueue(n) => PublishKeepsInv(s, n); ClaimsTile(Publish(s, n), es[1..]);
      case Consume(t, c) =>
        if t >= |s.threads| {
          ClaimsTile(s, es[1..]);
        } else {
          StepKeepsInv(s, t, c);
          ClaimsTile(Next(s, t, c), es[1..]);
          HeadMoves(s, t, c);
          var rest := ClaimsMade(Next(s, t, c), es[1..]);
          assert s.threads[t].AddHead? ==> (ClaimOf(s, s.threads[t]) + rest)[1..] == rest;
          assert !s.threads[t].AddHead? ==> ClaimOf(s, s.threads[t]) + rest == rest;
        }
    }
  }

  lemma HeadMoves(s: State, t: nat, c: Call)
    requires TicketsInRange(s) && t < |s.threads|
    ensures Next(s, t, c).head == s.head + if s.threads[t].AddHead? then s.threads[t].actual else 0
  {
  }

  lemma {:induction false} TilesAreApart(cs: seq<Claim>, lo: nat, hi: nat, i: nat, j: nat)
    requires Tile(cs, lo, hi) && i < |cs|
    ensures lo <= cs[i].first && cs[i].first + cs[i].count <= hi
    ensures i < j < |cs| ==> cs[i].first + cs[i].count <= cs[j].first
    decreases |cs|
  {
    if i > 0 {
      TilesAreApart(cs[1..], lo + cs[0].count, hi, i - 1, if j > 0 then j - 1 else 0);
    } else {
      TileSpans(cs[1..], lo + cs[0].count, hi);
      if 0 < j < |cs| { TilesAreApart(cs[1..], lo + cs[0].count, hi, j - 1, j - 1); }
    }
  }

  lemma {:induction false} TileSpans(cs: seq<Claim>, lo: nat, hi: nat)
    requires Tile(cs, lo, hi)
    ensures lo <= hi
    decreases |cs|
  {
    if cs != [] { TileSpans(cs[1..], lo + cs[0].count, hi); }
  }

  lemma {:induction false} TilesCover(cs: seq<Claim>, lo: nat, hi: nat, x: nat) returns (i: nat)
    requires Tile(cs, lo, hi) && lo <= x < hi
    ensures i < |cs| && InClaim(cs[i], x)
    decreases |cs|
  {
    i := 0;
    if x >= lo + cs[0].count {
      i := TilesCover(cs[1..], lo + cs[0].count, hi, x);
      i := i + 1;
    }
  }

  /** Over a whole run no index is ever handed out twice, finished claims included:
      the claims made, in order, tile the indices from 0 to the head, and all of
      them lie below the tail. */
  lemma EveryIndexHandedOutOnce(s0: State, es: seq<Event>)
    requires Init(s0)
    ensures Inv(s0)
    ensures var cs, s := ClaimsMade(s0, es), Run(s0, es);
      && s.head <= s.tail
      && (forall i, j, x :: 0 <= i < j < |cs| && InClaim(cs[i], x) ==> !InClaim(cs[j], x))
      && (forall x: nat :: Claimed(cs, x) <==> x < s.head)
  {
    InitInv(s0);
    var cs, s := ClaimsMade(s0, es), Run(s0, es);
    HeadBehindTail(s);
    ClaimsTile(s0, es);
    forall i, j, x | 0 <= i < j < |cs| && InClaim(cs[i], x) ensures !InClaim(cs[j], x) {
      TilesAreApart(cs, 0, s.head, i, j);
    }
    forall x: nat ensures Claimed(cs, x) <==> x < s.head {
      if x < s.head { var i := TilesCover(cs, 0, s.head, x); }
      forall i | 0 <= i < |cs| && InClaim(cs[i], x) ensures x < s.head { TilesAreApart(cs, 0, s.head, i, i); }
    }
  }

  /** At the instant a consumer moves the head, what it takes is all published. */
  lemma ClaimStaysBehindTail(s: State, t: nat, c: Call)
    requires Inv(s) && t < |s.threads| && s.threads[t].AddHead?
    ensures Next(s, t, c).threads[t] == Got(s.head, s.threads[t].actual)
    ensures Next(s, t, c).head == s.head + s.threads[t].actual <= s.tail
  {
    StepKeepsInv(s, t, c);
    HeadBehindTail(Next(s, t, c));
  }

  /** Once no request is in flight, optimistic count less overcommit is the
      head again: failed requests leave no trace. */
  lemma QuiescentCountIsHead(s: State)
    requires Inv(s) && forall t :: 0 <= t < |s.threads| ==> InFlight(s.threads[t]) == 0
    ensures s.optimistic - s.overcommit == s.head
  {
    SumsIdle(s.threads);
  }

  // ------------------------------------------------- what a call comes to

  /** Consumer t makes its next n accesses with nobody in between. */
  ghost function Alone(s: State, t: nat, n: nat): (r: State)
    requires TicketsInRange(s) && t < |s.threads|
    ensures TicketsInRange(r) && |r.threads| == |s.threads|
    decreases n
  {
    if n == 0 then s
    else
      StepInRange(s, t);
      Alone(Next(s, t, Advance), t, n - 1)
  }

  lemma StepInRange(s: State, t: nat)
    requires TicketsInRange(s) && t < |s.threads|
    ensures TicketsInRange(Next(s, t, Advance)) && |Next(s, t, Advance).threads| == |s.threads|
  {
    var s' := Next(s, t, Advance);
    forall u | 0 <= u < |s'.threads| && u != t ensures s'.threads[u] == s.threads[u] {}
  }

  lemma {:induction false} AloneAgain(s: State, t: nat, m: nat, n: nat)
    requires TicketsInRange(s) && t < |s.threads|
    ensures Alone(s, t, m + n) == Alone(Alone(s, t, m), t, n)
    decreases m
  {
    if m > 0 {
      StepInRange(s, t);
      AloneAgain(Next(s, t, Advance), t, m - 1, n);
    }
  }

  /** What one more access does. */
  lemma AloneNext(s: State, t: nat, m: nat, r: State)
    requires TicketsInRange(s) && t < |s.threads| && Alone(s, t, m) == r
    ensures Alone(s, t, m + 1) == Next(r, t, Advance)
  {
    StepInRange(r, t);
    AloneAgain(s, t, m, 1);
    assert Alone(r, t, 1) == Alone(Next(r, t, Advance), t, 0);
  }

  function At(s: State, t: nat, p: Pc): State
    requires t < |s.threads|
  {
    s.(threads := s.threads[t := p])
  }

  /** Published elements that are neither taken nor asked for by a request in flight. */
  function Unasked(s: State): int { s.tail - s.head - SumInFlight(s.threads) }

  lemma UnaskedIsSeen(s: State)
    requires Inv(s)
    ensures s.tail - (s.optimistic - s.overcommit) == Unasked(s)
  {
  }

  /** A dequeue up to its first look at the counters. */
  lemma LookAlone(s: State, t: nat, max: nat)
    requires TicketsInRange(s) && t < |s.threads| && s.threads[t] == LoadTail(max)
    ensures var available := s.tail - (s.optimistic - s.overcommit);
      Alone(s, t, 3) == At(s, t, if 0 < available then AddOptimistic(Min(available, max), s.overcommit) else Idle)
  {
    var s1, s2 := At(s, t, LoadOvercommit(max, s.tail)), At(s, t, LoadOptimistic(max, s.tail, s.overcommit));
    assert Alone(s, t, 1) == s1 by { AloneNext(s, t, 0, s); }
    assert Alone(s, t, 2) == s2 by { AloneNext(s, t, 1, s1); }
    AloneNext(s, t, 2, s2);
  }

  /** ... and from its request to its claim: all it asks for is approved. */
  lemma ClaimAlone(s: State, t: nat, n: nat)
    requires TicketsInRange(s) && t < |s.threads| && s.threads[t] == AddOptimistic(n, s.overcommit)
    requires n <= s.tail - (s.optimistic - s.overcommit) && 0 < s.tail - (s.optimistic - s.overcommit)
    ensures Alone(s, t, 3) == At(s, t, Got(s.head, n)).(optimistic := s.optimistic + n, head := s.head + n,
      fate := s.fate + seq(n, _ => Approved))
  {
    var my := s.optimistic;
    var s1 := At(s, t, ReloadTail(n, s.overcommit, my)).(optimistic := my + n,
      fate := s.fate + seq(n, _ => Pending(t)));
    var s2 := At(s, t, AddHead(n, my)).(optimistic := my + n, fate := s.fate + seq(n, _ => Approved));
    assert Alone(s, t, 1) == s1 by { AloneNext(s, t, 0, s); }
    assert SetRange(s1.fate, my, n, Approved) == s2.fate;
    assert Alone(s, t, 2) == s2 by { AloneNext(s, t, 1, s1); }
    AloneNext(s, t, 2, s2);
  }

  /** A dequeue that nobody disturbs takes as many as it may of the elements that
      nobody has asked for, from the head on; and nothing exactly if there are
      none. */
  lemma DequeueAlone(s: State, t: nat, max: nat)
    requires Inv(s) && t < |s.threads| && s.threads[t] == LoadTail(max)
    ensures Unasked(s) <= 0 ==> Alone(s, t, 3) == At(s, t, Idle)
    ensures Unasked(s) > 0 ==> var n := Min(Unasked(s), max);
      && n >= 0
      && Alone(s, t, 6) == At(s, t, Got(s.head, n)).(optimistic := s.optimistic + n, head := s.head + n,
           fate := s.fate + seq(n, _ => Approved))
  {
    UnaskedIsSeen(s);
    LookAlone(s, t, max);
    if Unasked(s) > 0 {
      var n := Min(Unasked(s), max);
      LookedThenClaimed(s, t, n, At(s, t, AddOptimistic(n, s.overcommit)));
    }
  }

  lemma LookedThenClaimed(s: State, t: nat, n: nat, r: State)
    requires TicketsInRange(s) && t < |s.threads| && Alone(s, t, 3) == r
    requires r == At(s, t, AddOptimistic(n, s.overcommit))
    requires n <= s.tail - (s.optimistic - s.overcommit) && 0 < s.tail - (s.optimistic - s.overcommit)
    ensures Alone(s, t, 6) == At(s, t, Got(s.head, n)).(optimistic := s.optimistic + n, head := s.head + n,
      fate := s.fate + seq(n, _ => Approved))
  {
    ClaimAlone(r, t, n);
    AloneAgain(s, t, 3, 3);
    assert At(r, t, Got(s.head, n)).threads == At(s, t, Got(s.head, n)).threads;
  }

  /** With no request in flight: it takes from the front of all that is published,
      and nothing exactly if the queue is empty. */
  lemma DequeueAloneWhenQuiet(s: State, t: nat, max: nat)
    requires Inv(s) && t < |s.threads| && s.threads[t] == LoadTail(max)
    requires forall u :: 0 <= u < |s.threads| ==> InFlight(s.threads[u]) == 0
    ensures s.head <= s.tail
    ensures s.head == s.tail ==> Alone(s, t, 3) == At(s, t, Idle)
    ensures s.head < s.tail ==> Alone(s, t, 6).threads[t] == Got(s.head, Min(max, s.tail - s.head))
  {
    SumsIdle(s.threads);
    HeadBehindTail(s);
    DequeueAlone(s, t, max);
  }

  // ------------------------------------------------------ the code, in place

  /** The four counters of ProducerBase, changed in place; StepKeepsInv is what
      keeps Inv from step to step. */
  class Counters {
    var tailIndex: nat
    var headIndex: nat
    var dequeueOptimisticCount: nat
    var dequeueOvercommit: nat
    var threads: seq<Pc>
    ghost var fate: seq<Fate>

    constructor (consumers: nat)
      ensures Init(View()) && |threads| == consumers
    {
      tailIndex, headIndex, dequeueOptimisticCount, dequeueOvercommit := 0, 0, 0, 0;
      threads := seq(consumers, _ => Idle);
      fate := [];
    }

    ghost function View(): State
      reads this
    {
      State(tailIndex, headIndex, dequeueOptimisticCount, dequeueOvercommit, threads, fate)
    }

    /** The next access of consumer t in `dequeue` or `dequeue_bulk`, up to its
        request on the optimistic count. */
    method Request(t: nat)
      requires TicketsInRange(View()) && t < |threads|
      requires var p := threads[t]; p.LoadTail? || p.LoadOvercommit? || p.LoadOptimistic? || p.AddOptimistic?
      modifies this
      ensures View() == Next(old(View()), t, Advance)
    {
      match threads[t] {
        case LoadTail(max) =>
          threads := threads[t := LoadOvercommit(max, tailIndex)];
        case LoadOvercommit(max, tail) =>
          threads := threads[t := LoadOptimistic(max, tail, dequeueOvercommit)];
        case LoadOptimistic(max, tail, over) =>
          var desired := tail - (dequeueOptimisticCount - over);
          if 0 < desired {
            desired := if desired < max then desired else max;
            threads := threads[t := AddOptimistic(desired, over)];
          } else {
            threads := threads[t := Idle];
          }
        case AddOptimistic(desired, over) =>
          threads := threads[t := ReloadTail(desired, over, dequeueOptimisticCount)];
          dequeueOptimisticCount := dequeueOptimisticCount + desired;
          fate := fate + seq(desired, _ => Pending(t));
      }
    }

    /** ... then its second look at the tail. */
    method Check(t: nat)
      requires TicketsInRange(View()) && t < |threads| && threads[t].ReloadTail?
      modifies this
      ensures View() == Next(old(View()), t, Advance)
    {
      var ReloadTail(desired, over, my) := threads[t];
      var actual := tailIndex - (my - over);
      if 0 < actual {
        actual := if desired < actual then desired else actual;
        threads := threads[t := if actual < desired then AddOvercommit(desired - actual, actual, true, my)
          else AddHead(actual, my)];
        fate := SetRange(fate, my, actual, Approved);
      } else {
        threads := threads[t := AddOvercommit(desired, 0, false, my)];
      }
    }

    /** ... and from there to the claim on the head index. */
    method Claim(t: nat)
      requires TicketsInRange(View()) && t < |threads| && (threads[t].AddOvercommit? || threads[t].AddHead?)
      modifies this
      ensures View() == Next(old(View()), t, Advance)
    {
      match threads[t] {
        case AddOvercommit(excess, actual, more, my) =>
          dequeueOvercommit := dequeueOvercommit + excess;
          fate := SetRange(fate, my + actual, excess, Failed);
          threads := threads[t := if more then AddHead(actual, my) else Idle];
        case AddHead(actual, my) =>
          threads := threads[t := Got(headIndex, actual)];
          headIndex := headIndex + actual;
      }
    }
  }
}
