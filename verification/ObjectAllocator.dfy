/**
 The profiler's lock-free object allocator: one thread allocates (thread 0),
 any thread frees, one object or a linked range at a time.

 A step is one access to the head, to an object's link, or to a counter.
 */
module ObjectAllocator {
  import opened Prelude

  /** What a push is part of. */
  datatype Why = NewObject | Freed

  datatype Pc =
    | Idle
    | AllocTest                                                   // first_free == NULL?
    | PushLoad(chain: seq<nat>, why: Why)                         // old_link = first_free
    | PushStore(chain: seq<nat>, old_link: Option<nat>, why: Why) // end->next = old_link
    | PushCas(chain: seq<nat>, old_link: Option<nat>, why: Why)   // compare and swap first_free
    | CountAllocated                                              // nb_allocated + 1
    | CountNewFree                                                // nb_free + 1
    | PopLoad                                                     // old_link = first_free
    | PopNext(n: nat)                                             // next_link = old_link->next
    | PopCas(n: nat, next: Option<nat>)                           // compare and swap first_free
    | PopClear(n: nat)                                            // link->next = NULL
    | CountTaken(n: nat)                                          // nb_free - 1
    | CountInUse(n: nat)                                          // nb_inuse + 1
    | CountReturned(count: nat)                                   // nb_inuse - count
    | CountFreed(count: nat)                                      // nb_free + count

  /** Bookkeeping: where an object is. */
  datatype Status = Free | InUse | Held(t: nat)

  datatype State = State(
    first_free: Option<nat>,
    next: seq<Option<nat>>,           // the link of every object ever allocated
    nb_free: int, nb_inuse: int, nb_allocated: int,
    threads: seq<Pc>,
    list: seq<nat>,                   // bookkeeping: the chain from first_free
    status: seq<Status>)              // bookkeeping

  datatype Call =
    | CallAlloc
    | CallFree(chain: seq<nat>)             // Free, or FreeRange of a linked range
    | Link(n: nat, next: Option<nat>)       // a client links objects it uses
    | Advance

  /** The links of chain run from each object to the following one. */
  ghost predicate Linked(next: seq<Option<nat>>, chain: seq<nat>) {
    && (forall i :: 0 <= i < |chain| ==> chain[i] < |next|)
    && (forall i, j :: 0 <= i < j < |chain| ==> chain[i] != chain[j])
    && (forall i :: 0 <= i < |chain| - 1 ==> next[chain[i]] == Some(chain[i + 1]))
  }

  ghost predicate Shape(s: State) {
    && |s.status| == |s.next|
    && forall t :: 0 <= t < |s.threads| ==> PcShape(s, s.threads[t])
  }

  ghost predicate PcShape(s: State, p: Pc) {
    && (p.PushLoad? || p.PushStore? || p.PushCas? ==>
          p.chain != [] && Linked(s.next, p.chain) && (p.why.NewObject? ==> |p.chain| == 1))
    && (p.PopNext? || p.PopCas? || p.PopClear? || p.CountTaken? || p.CountInUse? ==> p.n < |s.next|)
  }

  function Last(chain: seq<nat>): nat
    requires chain != []
  {
    chain[|chain| - 1]
  }

  function Mark(status: seq<Status>, chain: seq<nat>, v: Status): (r: seq<Status>)
    ensures |r| == |status|
    ensures forall n :: 0 <= n < |status| ==> r[n] == if n in chain then v else status[n]
  {
    seq(|status|, n requires 0 <= n < |status| => if n in chain then v else status[n])
  }

  function WithPc(s: State, t: nat, p: Pc): State
    requires t < |s.threads|
  {
    s.(threads := s.threads[t := p])
  }

  function AfterPush(why: Why, count: nat): Pc {
    if why.NewObject? then CountAllocated else CountReturned(count)
  }

  ghost function Start(s: State, t: nat, c: Call): State
    requires Shape(s) && t < |s.threads|
  {
    match c
    case CallAlloc => if t == 0 then WithPc(s, t, AllocTest) else s
    case CallFree(chain) =>
      if chain != [] && Linked(s.next, chain) && (forall i :: 0 <= i < |chain| ==> s.status[chain[i]] == InUse) then
        WithPc(s, t, PushLoad(chain, Freed)).(status := Mark(s.status, chain, Held(t)))
      else s
    case Link(n, next) =>
      if n < |s.next| && s.status[n] == InUse then s.(next := s.next[n := next]) else s
    case Advance => s
  }

  ghost function AllocNext(s: State, t: nat): State
    requires Shape(s) && t < |s.threads|
  {
    match s.threads[t]
    case AllocTest =>
      if s.first_free.Some? then WithPc(s, t, PopLoad)
      else WithPc(s, t, PushLoad([|s.next|], NewObject)).(next := s.next + [None], status := s.status + [Held(t)])
    case CountAllocated => WithPc(s, t, CountNewFree).(nb_allocated := s.nb_allocated + 1)
    case CountNewFree => WithPc(s, t, PopLoad).(nb_free := s.nb_free + 1)
    case PopLoad => if s.first_free.Some? then WithPc(s, t, PopNext(s.first_free.value)) else s
    case PopNext(n) => if n < |s.next| then WithPc(s, t, PopCas(n, s.next[n])) else s
    case PopCas(n, nx) =>
      if s.first_free == Some(n) then
        WithPc(s, t, PopClear(n)).(first_free := nx, list := if s.list == [] then []
          else s.list[1..], status := s.status[n := Held(t)])
      else WithPc(s, t, PopLoad)
    case PopClear(n) => WithPc(s, t, CountTaken(n)).(next := s.next[n := None])
    case CountTaken(n) => WithPc(s, t, CountInUse(n)).(nb_free := s.nb_free - 1)
    case CountInUse(n) => WithPc(s, t, Idle).(nb_inuse := s.nb_inuse + 1, status := s.status[n := InUse])
    case _ => s
  }

  ghost function PushNext(s: State, t: nat): State
    requires Shape(s) && t < |s.threads|
  {
    match s.threads[t]
    case PushLoad(chain, why) => WithPc(s, t, PushStore(chain, s.first_free, why))
    case PushStore(chain, old_link, why) =>
      WithPc(s, t, PushCas(chain, old_link, why)).(next := s.next[Last(chain) := old_link])
    case PushCas(chain, old_link, why) =>
      if s.first_free == old_link then
        WithPc(s, t, AfterPush(why, |chain|)).(first_free := Some(chain[0]), list := chain + s.list,
          status := Mark(s.status, chain, Free))
      else WithPc(s, t, PushLoad(chain, why))
    case CountReturned(count) => WithPc(s, t, CountFreed(count)).(nb_inuse := s.nb_inuse - count)
    case CountFreed(count) => WithPc(s, t, Idle).(nb_free := s.nb_free + count)
    case _ => s
  }

  predicate IsPush(p: Pc) { p.PushLoad? || p.PushStore? || p.PushCas? || p.CountReturned? || p.CountFreed? }

  ghost function Next(s: State, t: nat, c: Call): State
    requires Shape(s) && t < |s.threads|
  {
    if s.threads[t].Idle? then Start(s, t, c)
    else if IsPush(s.threads[t]) then PushNext(s, t)
    else AllocNext(s, t)
  }

  // -------------------------------------------------------------- invariant

  /** How much a thread's unfinished operation makes nb_free differ from the
      length of the list, and nb_free + nb_inuse from nb_allocated. */
  function FreeDebt(p: Pc): int {
    match p
    case CountAllocated => -1
    case CountNewFree => -1
    case PopClear(_) => 1
    case CountTaken(_) => 1
    case CountReturned(c) => 0 - c
    case CountFreed(c) => 0 - c
    case _ => 0
  }

  function BalanceDebt(p: Pc): int {
    match p
    case CountNewFree => -1
    case CountInUse(_) => -1
    case CountFreed(c) => 0 - c
    case _ => 0
  }

  /** Objects made but not yet counted as allocated. */
  function Uncounted(p: Pc): nat {
    match p
    case PushLoad(_, NewObject) => 1
    case PushStore(_, _, NewObject) => 1
    case PushCas(_, _, NewObject) => 1
    case CountAllocated => 1
    case _ => 0
  }

  function SumFree(ts: seq<Pc>): int { if ts == [] then 0 else FreeDebt(ts[0]) + SumFree(ts[1..]) }
  function SumBalance(ts: seq<Pc>): int { if ts == [] then 0 else BalanceDebt(ts[0]) + SumBalance(ts[1..]) }
  function SumUncounted(ts: seq<Pc>): nat { if ts == [] then 0 else Uncounted(ts[0]) + SumUncounted(ts[1..]) }

  lemma {:induction false} SumsUpdate(ts: seq<Pc>, t: nat, p: Pc)
    requires t < |ts|
    ensures SumFree(ts[t := p]) == SumFree(ts) - FreeDebt(ts[t]) + FreeDebt(p)
    ensures SumBalance(ts[t := p]) == SumBalance(ts) - BalanceDebt(ts[t]) + BalanceDebt(p)
    ensures SumUncounted(ts[t := p]) == SumUncounted(ts) - Uncounted(ts[t]) + Uncounted(p)
  {
    if t == 0 {
      assert ts[t := p][1..] == ts[1..];
    } else {
      assert ts[t := p][1..] == ts[1..][t - 1 := p];
      SumsUpdate(ts[1..], t - 1, p);
    }
  }

  lemma {:induction false} SumsIdle(ts: seq<Pc>)
    requires forall t :: 0 <= t < |ts| ==> ts[t] == Idle
    ensures SumFree(ts) == SumBalance(ts) == SumUncounted(ts) == 0
  {
    if ts != [] { SumsIdle(ts[1..]); }
  }

  ghost predicate Counts(s: State) {
    && s.nb_free == |s.list| + SumFree(s.threads)
    && s.nb_free + s.nb_inuse == s.nb_allocated + SumBalance(s.threads)
    && s.nb_allocated + SumUncounted(s.threads) == |s.next|
  }

  ghost predicate Chain(s: State) {
    && Linked(s.next, s.list)
    && s.first_free == (if s.list == [] then None else Some(s.list[0]))
    && (s.list != [] ==> s.next[Last(s.list)] == None)
  }

  ghost predicate StatusOk(s: State)
    requires |s.status| == |s.next|
  {
    forall n :: 0 <= n < |s.next| ==>
      && (s.status[n].Free? <==> n in s.list)
      && (s.status[n].Held? ==> s.status[n].t < |s.threads| && Holds(s.threads[s.status[n].t], n))
  }

  /** Thread state p is pushing n, or has just popped it. */
  predicate Holds(p: Pc, n: nat) {
    || ((p.PushLoad? || p.PushStore? || p.PushCas?) && n in p.chain)
    || ((p.PopClear? || p.CountTaken? || p.CountInUse?) && p.n == n)
  }

  ghost predicate ThreadOk(s: State, t: nat)
    requires Shape(s) && t < |s.threads|
  {
    var p := s.threads[t];
    && (forall n :: 0 <= n < |s.next| && Holds(p, n) ==> s.status[n] == Held(t))
    && (p.PushCas? ==> s.next[Last(p.chain)] == p.old_link)
    && (p.PopNext? || p.PopCas? ==> s.status[p.n] == Free)
    && (p.PopCas? ==> s.next[p.n] == p.next)
    && (p.CountTaken? || p.CountInUse? ==> s.next[p.n] == None)
    && (p.PopLoad? ==> s.list != [])
    && (p.CountAllocated? || p.CountNewFree? ==> s.list != [])
    && (t != 0 ==> p.Idle? || (IsPush(p) && ((p.PushLoad? || p.PushStore? || p.PushCas?) ==> p.why.Freed?)))
  }

  ghost predicate Inv(s: State) {
    && Shape(s) && Counts(s) && Chain(s) && StatusOk(s)
    && (forall t :: 0 <= t < |s.threads| ==> ThreadOk(s, t))
  }

  ghost predicate Init(s: State) {
    && s.first_free == None && s.next == [] && s.list == [] && s.status == []
    && s.nb_free == s.nb_inuse == s.nb_allocated == 0
    && forall t :: 0 <= t < |s.threads| ==> s.threads[t] == Idle
  }

  lemma InitInv(s: State)
    requires Init(s)
    ensures Inv(s)
  {
    SumsIdle(s.threads);
  }

  // ---------------------------------------------------------- preservation

  /** A chain keeps its links when other objects are relinked or added. */
  lemma LinkedKept(next: seq<Option<nat>>, next': seq<Option<nat>>, chain: seq<nat>)
    requires Linked(next, chain) && |next| <= |next'|
    requires forall i :: 0 <= i < |chain| - 1 ==> next'[chain[i]] == next[chain[i]]
    ensures Linked(next', chain)
  {
  }

  /** Steps that touch neither links nor statuses. */
  lemma QuietStep(s: State, s': State, t: nat)
    requires Inv(s) && t < |s.threads| && |s'.threads| == |s.threads| && s'.threads == s.threads[t := s'.threads[t]]
    requires s'.next == s.next && s'.list == s.list && s'.status == s.status && s'.first_free == s.first_free
    requires PcShape(s', s'.threads[t]) && Counts(s')
    requires forall n :: 0 <= n < |s.next| ==> (Holds(s.threads[t], n) <==> Holds(s'.threads[t], n))
    requires Shape(s') ==> ThreadOk(s', t)
    ensures Inv(s')
  {
    forall u | 0 <= u < |s'.threads| ensures PcShape(s', s'.threads[u]) { assert PcShape(s, s.threads[u]); }
    forall u | 0 <= u < |s'.threads| ensures ThreadOk(s', u) { if u != t { assert ThreadOk(s, u); } }
  }

  lemma PushLoadStep(s: State, t: nat)
    requires Inv(s) && t < |s.threads|
      && (s.threads[t].PushLoad? || (s.threads[t].PushCas? && s.first_free != s.threads[t].old_link))
    ensures Inv(PushNext(s, t))
  {
    var s' := PushNext(s, t);
    SumsUpdate(s.threads, t, s'.threads[t]);
    assert ThreadOk(s, t) && PcShape(s, s.threads[t]);
    QuietStep(s, s', t);
  }

  lemma ReturnCountStep(s: State, t: nat)
    requires Inv(s) && t < |s.threads| && (s.threads[t].CountReturned? || s.threads[t].CountFreed?)
    ensures Inv(PushNext(s, t))
  {
    var s' := PushNext(s, t);
    assert Counts(s') by { SumsUpdate(s.threads, t, s'.threads[t]); }
    assert ThreadOk(s, t);
    QuietStep(s, s', t);
  }

  lemma PushStoreStep(s: State, t: nat)
    requires Inv(s) && t < |s.threads| && s.threads[t].PushStore?
    ensures Inv(PushNext(s, t))
  {
    var s' := PushNext(s, t);
    var p := s.threads[t];
    var n := Last(p.chain);
    SumsUpdate(s.threads, t, s'.threads[t]);
    assert ThreadOk(s, t) && PcShape(s, p);
    assert Holds(p, n);
    RelinkKeeps(s, s', t, n);
  }

  /** Thread t rewrites the link of an object it holds, or that is in use. */
  lemma RelinkKeeps(s: State, s': State, t: nat, n: nat)
    requires Inv(s) && t < |s.threads| && |s'.threads| == |s.threads| && s'.threads == s.threads[t := s'.threads[t]]
    requires n < |s.next| && |s'.next| == |s.next| && s'.next == s.next[n := s'.next[n]]
      && (s.status[n] == InUse || s.status[n] == Held(t))
    requires s'.list == s.list && s'.status == s.status && s'.first_free == s.first_free && Counts(s')
    requires forall m :: 0 <= m < |s.next| ==> (Holds(s.threads[t], m) <==> Holds(s'.threads[t], m))
    requires PcShape(s', s'.threads[t]) && (Shape(s') ==> ThreadOk(s', t))
    ensures Inv(s')
  {
    assert n !in s.list;
    forall u | 0 <= u < |s'.threads| ensures PcShape(s', s'.threads[u]) {
      if u != t {
        var q := s.threads[u];
        assert PcShape(s, q) && ThreadOk(s, u);
        if q.PushLoad? || q.PushStore? || q.PushCas? {
          OtherChain(s, u, n);
          LinkedKept(s.next, s'.next, q.chain);
        }
      }
    }
    LinkedKept(s.next, s'.next, s.list);
    forall u | 0 <= u < |s'.threads| ensures ThreadOk(s', u) {
      if u != t {
        assert ThreadOk(s, u) && PcShape(s, s.threads[u]);
        if s.threads[u].PushCas? { OtherChain(s, u, n); }
      }
    }
  }

  lemma OtherChain(s: State, u: nat, n: nat)
    requires Inv(s) && u < |s.threads| && n < |s.next| && s.status[n] != Held(u)
    requires var q := s.threads[u]; q.PushLoad? || q.PushStore? || q.PushCas?
    ensures n !in s.threads[u].chain
  {
    assert ThreadOk(s, u);
    var q := s.threads[u];
    assert Holds(q, n) <==> n in q.chain;
  }

  /** A winning push CAS puts the whole range in front of the list. */
  lemma PushedChain(next: seq<Option<nat>>, chain: seq<nat>, list: seq<nat>)
    requires Linked(next, chain) && Linked(next, list) && chain != []
    requires forall i :: 0 <= i < |chain| ==> chain[i] !in list
    requires next[Last(chain)] == if list == [] then None else Some(list[0])
    requires list != [] ==> next[Last(list)] == None
    ensures Linked(next, chain + list) && next[Last(chain + list)] == None
  {
    assert Last(chain + list) == if list == [] then Last(chain) else Last(list);
  }

  lemma PushCasChain(s: State, t: nat)
    requires Inv(s) && t < |s.threads| && s.threads[t].PushCas? && s.first_free == s.threads[t].old_link
    ensures Chain(PushNext(s, t)) && Counts(PushNext(s, t))
  {
    var s' := PushNext(s, t);
    var p := s.threads[t];
    SumsUpdate(s.threads, t, s'.threads[t]);
    assert ThreadOk(s, t) && PcShape(s, p);
    forall i | 0 <= i < |p.chain| ensures p.chain[i] !in s.list { assert Holds(p, p.chain[i]); }
    PushedChain(s.next, p.chain, s.list);
  }

  lemma PushCasStep(s: State, t: nat)
    requires Inv(s) && t < |s.threads| && s.threads[t].PushCas? && s.first_free == s.threads[t].old_link
    ensures Inv(PushNext(s, t))
  {
    var s' := PushNext(s, t);
    PushCasChain(s, t);
    forall u | 0 <= u < |s'.threads| ensures PcShape(s', s'.threads[u]) { assert PcShape(s, s.threads[u]); }
    PushCasStatus(s, s', t);
    forall u | 0 <= u < |s'.threads| ensures ThreadOk(s', u) {
      if u != t { PushCasOther(s, s', t, u); } else { assert ThreadOk(s, t) && PcShape(s, s.threads[t]); }
    }
  }

  lemma PushCasStatus(s: State, s': State, t: nat)
    requires Inv(s) && t < |s.threads| && s.threads[t].PushCas? && s.first_free == s.threads[t].old_link
      && s' == PushNext(s, t)
    ensures StatusOk(s')
  {
    var p := s.threads[t];
    forall n | 0 <= n < |s.next|
      ensures (s'.status[n].Free? <==> n in s'.list)
        && (s'.status[n].Held? ==> s'.status[n].t < |s'.threads| && Holds(s'.threads[s'.status[n].t], n))
    {
      assert n in p.chain + s.list <==> n in p.chain || n in s.list;
    }
  }

  lemma PushCasOther(s: State, s': State, t: nat, u: nat)
    requires Inv(s) && t < |s.threads| && s.threads[t].PushCas? && s.first_free == s.threads[t].old_link
      && s' == PushNext(s, t)
    requires Shape(s') && u < |s.threads| && u != t
    ensures ThreadOk(s', u)
  {
    assert ThreadOk(s, u) && ThreadOk(s, t) && PcShape(s, s.threads[u]);
    forall n | 0 <= n < |s.next| && Holds(s.threads[u], n) ensures s'.status[n] == Held(u) {
      if n in s.threads[t].chain { assert Holds(s.threads[t], n); }
    }
  }

  lemma PushStep(s: State, t: nat)
    requires Inv(s) && t < |s.threads| && IsPush(s.threads[t])
    ensures Inv(PushNext(s, t))
  {
    var p := s.threads[t];
    if p.PushStore? { PushStoreStep(s, t); }
    else if p.PushCas? && s.first_free == p.old_link { PushCasStep(s, t); }
    else if p.PushLoad? || p.PushCas? { PushLoadStep(s, t); }
    else { ReturnCountStep(s, t); }
  }

  lemma AllocCountStep(s: State, t: nat)
    requires Inv(s) && t < |s.threads| && !s.threads[t].Idle? && !IsPush(s.threads[t])
    requires !s.threads[t].PopClear? && !s.threads[t].CountInUse?
    requires !(s.threads[t].AllocTest? && s.first_free.None?)
      && !(s.threads[t].PopCas? && s.first_free == Some(s.threads[t].n))
    ensures Inv(AllocNext(s, t))
  {
    var s' := AllocNext(s, t);
    SumsUpdate(s.threads, t, s'.threads[t]);
    assert ThreadOk(s, t) && PcShape(s, s.threads[t]);
    QuietStep(s, s', t);
  }

  lemma NewObjectStep(s: State, t: nat)
    requires Inv(s) && t < |s.threads| && s.threads[t].AllocTest? && s.first_free.None?
    ensures Inv(AllocNext(s, t))
  {
    var s' := AllocNext(s, t);
    SumsUpdate(s.threads, t, s'.threads[t]);
    assert ThreadOk(s, t);
    LinkedKept(s.next, s'.next, s.list);
    forall u | 0 <= u < |s'.threads| ensures PcShape(s', s'.threads[u]) {
      if u != t {
        assert PcShape(s, s.threads[u]);
        if s.threads[u].PushLoad? || s.threads[u].PushStore? || s.threads[u].PushCas? {
          LinkedKept(s.next, s'.next, s.threads[u].chain);
        }
      }
    }
    forall u | 0 <= u < |s'.threads| ensures ThreadOk(s', u) {
      if u != t { assert ThreadOk(s, u) && PcShape(s, s.threads[u]); }
    }
  }

  /** A winning pop CAS: the next link read before it is the true successor. */
  lemma PopFacts(s: State, t: nat)
    requires Inv(s) && t < |s.threads| && s.threads[t].PopCas? && s.first_free == Some(s.threads[t].n)
    ensures t == 0 && s.list != [] && s.list[0] == s.threads[t].n && s.status[s.list[0]] == Free
    ensures s.threads[t].next == s.next[s.list[0]] == if |s.list| > 1 then Some(s.list[1]) else None
  {
    assert ThreadOk(s, t) && PcShape(s, s.threads[t]);
  }

  lemma PopStep(s: State, t: nat)
    requires Inv(s) && t < |s.threads| && s.threads[t].PopCas? && s.first_free == Some(s.threads[t].n)
    ensures Inv(AllocNext(s, t))
  {
    var s' := AllocNext(s, t);
    PopFacts(s, t);
    SumsUpdate(s.threads, t, s'.threads[t]);
    assert s.list == [s.list[0]] + s'.list;
    forall u | 0 <= u < |s'.threads| ensures PcShape(s', s'.threads[u]) { assert PcShape(s, s.threads[u]); }
    PopStatus(s, s', t);
    forall u | 0 <= u < |s'.threads| ensures ThreadOk(s', u) { PopThread(s, s', t, u); }
  }

  lemma PopStatus(s: State, s': State, t: nat)
    requires Inv(s) && t < |s.threads| && s.threads[t].PopCas? && s.first_free == Some(s.threads[t].n)
      && s' == AllocNext(s, t)
    ensures StatusOk(s')
  {
    PopFacts(s, t);
    forall n | 0 <= n < |s.next|
      ensures (s'.status[n].Free? <==> n in s'.list)
        && (s'.status[n].Held? ==> s'.status[n].t < |s'.threads| && Holds(s'.threads[s'.status[n].t], n))
    {
      assert s.list == [s.list[0]] + s'.list;
    }
  }

  lemma PopThread(s: State, s': State, t: nat, u: nat)
    requires Inv(s) && t < |s.threads| && s.threads[t].PopCas? && s.first_free == Some(s.threads[t].n)
      && s' == AllocNext(s, t)
    requires Shape(s') && u < |s.threads|
    ensures ThreadOk(s', u)
  {
    PopFacts(s, t);
    assert ThreadOk(s, u) && PcShape(s, s.threads[u]);
  }

  lemma PopClearStep(s: State, t: nat)
    requires Inv(s) && t < |s.threads| && s.threads[t].PopClear?
    ensures Inv(AllocNext(s, t))
  {
    var s' := AllocNext(s, t);
    SumsUpdate(s.threads, t, s'.threads[t]);
    assert ThreadOk(s, t) && PcShape(s, s.threads[t]);
    assert Holds(s.threads[t], s.threads[t].n);
    RelinkKeeps(s, s', t, s.threads[t].n);
  }

  lemma HandOutStep(s: State, t: nat)
    requires Inv(s) && t < |s.threads| && s.threads[t].CountInUse?
    ensures Inv(AllocNext(s, t))
  {
    var s' := AllocNext(s, t);
    SumsUpdate(s.threads, t, s'.threads[t]);
    assert ThreadOk(s, t) && PcShape(s, s.threads[t]);
    assert Holds(s.threads[t], s.threads[t].n);
    forall u | 0 <= u < |s'.threads| ensures PcShape(s', s'.threads[u]) { assert PcShape(s, s.threads[u]); }
    forall u | 0 <= u < |s'.threads| ensures ThreadOk(s', u) { assert ThreadOk(s, u) && PcShape(s, s.threads[u]); }
  }

  lemma AllocStep(s: State, t: nat)
    requires Inv(s) && t < |s.threads| && !IsPush(s.threads[t]) && !s.threads[t].Idle?
    ensures Inv(AllocNext(s, t))
  {
    var p := s.threads[t];
    if p.AllocTest? && s.first_free.None? { NewObjectStep(s, t); }
    else if p.PopCas? && s.first_free == Some(p.n) { PopStep(s, t); }
    else if p.PopClear? { PopClearStep(s, t); }
    else if p.CountInUse? { HandOutStep(s, t); }
    else { AllocCountStep(s, t); }
  }

  lemma FreeStep(s: State, t: nat, chain: seq<nat>)
    requires Inv(s) && t < |s.threads| && s.threads[t].Idle?
    ensures Inv(Start(s, t, CallFree(chain)))
  {
    var s' := Start(s, t, CallFree(chain));
    if s' != s {
      SumsUpdate(s.threads, t, s'.threads[t]);
      forall u | 0 <= u < |s'.threads| ensures PcShape(s', s'.threads[u]) { assert PcShape(s, s.threads[u]); }
      forall n | 0 <= n < |s.next| ensures s'.status[n].Free? <==> n in s'.list {
        if n in chain { assert s.status[n] == InUse; }
      }
      forall u | 0 <= u < |s'.threads| ensures ThreadOk(s', u) {
        assert ThreadOk(s, u) && PcShape(s, s.threads[u]);
      }
    }
  }

  lemma StartStep(s: State, t: nat, c: Call)
    requires Inv(s) && t < |s.threads| && s.threads[t].Idle?
    ensures Inv(Start(s, t, c))
  {
    assert ThreadOk(s, t);
    match c {
      case CallAlloc =>
        if t == 0 { SumsUpdate(s.threads, t, AllocTest); QuietStep(s, WithPc(s, t, AllocTest), t); }
      case CallFree(chain) => FreeStep(s, t, chain);
      case Link(n, next) =>
        if n < |s.next| && s.status[n] == InUse {
          assert s.threads == s.threads[t := s.threads[t]];
          RelinkKeeps(s, s.(next := s.next[n := next]), t, n);
        }
      case Advance =>
    }
  }

  lemma StepKeepsInv(s: State, t: nat, c: Call)
    requires Inv(s) && t < |s.threads|
    ensures Inv(Next(s, t, c))
  {
    if s.threads[t].Idle? { StartStep(s, t, c); }
    else if IsPush(s.threads[t]) { PushStep(s, t); }
    else { AllocStep(s, t); }
  }

  // ------------------------------------------------------------ whole runs

  datatype Event = Event(t: nat, c: Call)

  ghost function Run(s: State, es: seq<Event>): (r: State)
    requires Inv(s)
    ensures Inv(r) && |r.threads| == |s.threads|
    decreases |es|
  {
    if es == [] then s
    else if es[0].t < |s.threads| then
      StepKeepsInv(s, es[0].t, es[0].c);
      Run(Next(s, es[0].t, es[0].c), es[1..])
    else Run(s, es[1..])
  }

  ghost predicate OnListOnce(s: State, n: nat) {
    exists i :: 0 <= i < |s.list| && s.list[i] == n && forall j :: 0 <= j < |s.list| && s.list[j] == n ==> j == i
  }

  /** Exactly the thread named by its status has n in an unfinished operation. */
  ghost predicate HeldAsStatusSays(s: State, n: nat)
    requires n < |s.status|
  {
    forall t :: 0 <= t < |s.threads| ==> (Holds(s.threads[t], n) <==> s.status[n] == Held(t))
  }

  lemma HeldByOne(s: State, n: nat)
    requires Inv(s) && n < |s.next|
    ensures n < |s.status| && HeldAsStatusSays(s, n)
  {
    forall t | 0 <= t < |s.threads| ensures Holds(s.threads[t], n) <==> s.status[n] == Held(t) {
      assert ThreadOk(s, t);
    }
  }

  lemma OnListExactlyWhenFree(s: State, n: nat)
    requires |s.status| == |s.next| && n < |s.next| && StatusOk(s) && Linked(s.next, s.list)
    ensures if s.status[n].Free? then OnListOnce(s, n) else n !in s.list
  {
    if s.status[n].Free? { var i :| 0 <= i < |s.list| && s.list[i] == n; }
  }

  /** In every reachable state an object is free, on the list exactly once; or
      with the clients; or inside the unfinished operation of exactly one thread. */
  lemma NoObjectLostOrShared(s0: State, es: seq<Event>, n: nat)
    requires Init(s0)
    ensures Inv(s0)
    ensures var s := Run(s0, es); n < |s.next| ==>
      && (if s.status[n].Free? then OnListOnce(s, n) else n !in s.list)
      && HeldAsStatusSays(s, n)
  {
    InitInv(s0);
    var s := Run(s0, es);
    if n < |s.next| {
      HeldByOne(s, n);
      OnListExactlyWhenFree(s, n);
    }
  }

  /** Single popper, no ABA: when the pop CAS wins, the link read before it is
      still the front object's, whatever was freed in between; the object leaves
      the list for this thread. */
  lemma WinningPopIsExact(s: State, t: nat, c: Call)
    requires Inv(s) && t < |s.threads| && s.threads[t].PopCas? && s.first_free == Some(s.threads[t].n)
    ensures var s' := Next(s, t, c);
      s.list != [] && s.list[0] == s.threads[t].n && s'.list == s.list[1..]
      && s'.first_free == (if |s.list| > 1 then Some(s.list[1]) else None)
      && s.status[s.list[0]] == Free && s'.status == s.status[s.list[0] := Held(t)]
  {
    PopFacts(s, t);
  }

  /** The code's assertion: the list is never empty when the popper gets there. */
  lemma PopNeverFindsNull(s: State, t: nat)
    requires Inv(s) && t < |s.threads| && s.threads[t].PopLoad?
    ensures s.first_free.Some?
  {
    assert ThreadOk(s, t);
  }

  /** When all operations are complete: free plus in use is allocated, and each
      counter is exactly what it says. */
  lemma CountersExactWhenComplete(s0: State, es: seq<Event>)
    requires Init(s0) && Inv(s0)
    requires forall t :: 0 <= t < |s0.threads| ==> Run(s0, es).threads[t] == Idle
    ensures var s := Run(s0, es);
      && s.nb_free + s.nb_inuse == s.nb_allocated == |s.next|
      && s.nb_free == |s.list|
      && s.nb_inuse == |set n | 0 <= n < |s.next| && s.status[n] == InUse|
  {
    var s := Run(s0, es);
    SumsIdle(s.threads);
    forall n | 0 <= n < |s.next| ensures !s.status[n].Held? { assert !Holds(Idle, n); }
    InUseCount(s.status, s.list);
  }

  lemma InUseCount(status: seq<Status>, list: seq<nat>)
    requires forall n :: 0 <= n < |status| ==> !status[n].Held? && (status[n].Free? <==> n in list)
    requires forall i :: 0 <= i < |list| ==> list[i] < |status|
    requires forall i, j :: 0 <= i < j < |list| ==> list[i] != list[j]
    ensures |set n | 0 <= n < |status| && status[n] == InUse| == |status| - |list|
  {
    var used := set n | 0 <= n < |status| && status[n] == InUse;
    var free := Members(list);
    MemberCount(list);
    FreeOrInUse(status, list, free, used);
  }

  lemma FreeOrInUse(status: seq<Status>, list: seq<nat>, free: set<int>, used: set<int>)
    requires forall n :: 0 <= n < |status| ==> !status[n].Held? && (status[n].Free? <==> n in list)
    requires forall i :: 0 <= i < |list| ==> list[i] < |status|
    requires forall n :: n in free <==> exists i :: 0 <= i < |list| && list[i] == n
    requires forall n :: n in used <==> 0 <= n < |status| && status[n] == InUse
    ensures UpTo(|status|) == free + used && free !! used
  {
    forall n | n in UpTo(|status|) ensures n in free + used {
      if status[n].Free? {
        assert n in list;
        var i :| 0 <= i < |list| && list[i] == n;
      }
    }
    forall n | n in free ensures n in UpTo(|status|) && n !in used {
      var i :| 0 <= i < |list| && list[i] == n;
      assert list[i] in list;
    }
  }

  function UpTo(k: nat): (r: set<int>)
    ensures |r| == k && forall n :: n in r <==> 0 <= n < k
  {
    if k == 0 then {} else
      var r := UpTo(k - 1);
      assert r !! {k - 1};
      r + {k - 1}
  }

  function Members(list: seq<nat>): (r: set<int>)
    ensures forall n :: n in r <==> exists i :: 0 <= i < |list| && list[i] == n
  {
    if list == [] then {} else
      var r := Members(list[1..]);
      assert list == [list[0]] + list[1..];
      assert forall n :: n in r + {list[0]} ==> exists i :: 0 <= i < |list| && list[i] == n by {
        assert forall n :: n in r ==> exists i :: 0 <= i < |list| && list[i] == n by {
          assert forall i :: 0 <= i < |list[1..]| ==> list[1..][i] == list[i + 1];
        }
      }
      r + {list[0]}
  }

  lemma {:induction false} MemberCount(list: seq<nat>)
    requires forall i, j :: 0 <= i < j < |list| ==> list[i] != list[j]
    ensures |Members(list)| == |list|
  {
    if list != [] {
      MemberCount(list[1..]);
      assert Members(list[1..]) !! {list[0]};
    }
  }

  /** What the popper needs at hand for its next access. */
  lemma PopPlace(s: State, t: nat)
    requires Inv(s) && t < |s.threads|
    ensures var p := s.threads[t];
      && (p.PopLoad? ==> s.first_free.Some?)
      && (p.PopNext? || p.PopCas? || p.PopClear? ==> p.n < |s.next| == |s.status|)
  {
    assert PcShape(s, s.threads[t]) && ThreadOk(s, t);
  }

  // ------------------------------------------------- what a call comes to

  /** An object is made only when none is free. */
  lemma MadeOnlyWhenNoneFree(s: State, t: nat, c: Call)
    requires Inv(s) && t < |s.threads|
    ensures |Next(s, t, c).next| > |s.next| <==> s.threads[t].AllocTest? && s.list == []
  {
  }

  /** An object handed out has no link. */
  lemma HandedOutUnlinked(s: State, t: nat, c: Call)
    requires Inv(s) && t < |s.threads| && s.threads[t].CountInUse?
    ensures var n := s.threads[t].n; var s' := Next(s, t, c);
      n < |s'.next| == |s'.status| && s'.next[n] == None && s'.status[n] == InUse && n !in s'.list
  {
    assert ThreadOk(s, t) && Holds(s.threads[t], s.threads[t].n);
  }

  /** Whatever others do, an allocation ends only by handing out an object, and a
      free only once the range is on the list and counted. */
  lemma EndsOnlyWhenDone(s: State, t: nat, c: Call)
    requires Inv(s) && t < |s.threads| && !s.threads[t].Idle?
    ensures |Next(s, t, c).threads| == |s.threads|
    ensures Next(s, t, c).threads[t].Idle? ==> s.threads[t].CountInUse? || s.threads[t].CountFreed?
    ensures s.threads[t].PushCas? && s.threads[t].why.Freed? && !Next(s, t, c).threads[t].PushLoad? ==>
      forall n :: n in s.threads[t].chain ==> n in Next(s, t, c).list
  {
    assert PcShape(s, s.threads[t]) && ThreadOk(s, t);
  }

  /** Thread t's next n accesses, with nobody else's between them. */
  ghost function Alone(s: State, t: nat, n: nat): State
    decreases n
  {
    if n == 0 || !Shape(s) || t >= |s.threads| then s else Alone(Next(s, t, Advance), t, n - 1)
  }

  lemma {:induction false} AloneAgain(s: State, t: nat, m: nat, n: nat)
    ensures Alone(s, t, m + n) == Alone(Alone(s, t, m), t, n)
    decreases m
  {
    if m > 0 && Shape(s) && t < |s.threads| { AloneAgain(Next(s, t, Advance), t, m - 1, n); }
  }

  lemma AloneNext(s: State, t: nat, n: nat, s': State)
    requires Inv(s) && t < |s.threads| && n > 0 && s' == Next(s, t, Advance)
    ensures Inv(s') && Alone(s, t, n) == Alone(s', t, n - 1)
  {
    StepKeepsInv(s, t, Advance);
  }

  /** The front object is in use, and its link cleared. */
  function FrontTaken(s: State): State
    requires s.list != [] && s.list[0] < |s.next| == |s.status|
  {
    var n := s.list[0];
    s.(first_free := if |s.list| > 1 then Some(s.list[1]) else None, list := s.list[1..],
       next := s.next[n := None], status := s.status[n := InUse])
  }

  /** A pop up to its compare and swap. */
  lemma PopAlone(s: State, t: nat) returns (n: nat)
    requires Inv(s) && t < |s.threads| && s.threads[t].PopLoad?
    ensures s.list != [] && s.list[0] < |s.next|
    ensures var k := s.list[0];
      var r := WithPc(s, t, PopClear(k)).(first_free := if |s.list| > 1 then Some(s.list[1]) else None,
        list := s.list[1..], status := s.status[k := Held(t)]);
      n == 3 && Alone(s, t, n) == r && Inv(r)
  {
    PopNeverFindsNull(s, t);
    var k := s.list[0];
    var s1 := WithPc(s, t, PopNext(k));
    n := 3;
    AloneNext(s, t, n, s1);
    var s2 := WithPc(s, t, PopCas(k, s.next[k]));
    assert s1.threads[t := s2.threads[t]] == s2.threads;
    AloneNext(s1, t, n - 1, s2);
    PopFacts(s2, t);
    assert s2.threads[t := PopClear(k)] == s.threads[t := PopClear(k)];
    AloneNext(s2, t, n - 2, Next(s2, t, Advance));
  }

  /** ... and after it. */
  lemma HandOutAlone(s: State, t: nat) returns (n: nat)
    requires Inv(s) && t < |s.threads| && s.threads[t].PopClear?
    ensures s.threads[t].n < |s.next|
    ensures var k := s.threads[t].n;
      n == 3 && Alone(s, t, n) == WithPc(s, t, Idle).(next := s.next[k := None], nb_free := s.nb_free - 1,
        nb_inuse := s.nb_inuse + 1, status := s.status[k := InUse])
  {
    assert PcShape(s, s.threads[t]);
    var k := s.threads[t].n;
    var s1 := WithPc(s, t, CountTaken(k)).(next := s.next[k := None]);
    n := 3;
    AloneNext(s, t, n, s1);
    var s2 := WithPc(s1, t, CountInUse(k)).(nb_free := s.nb_free - 1);
    AloneNext(s1, t, n - 1, s2);
    assert s2.threads[t := Idle] == s.threads[t := Idle];
    AloneNext(s2, t, n - 2, Next(s2, t, Advance));
  }

  /** Taking an object from the list, alone: the front one, with its link cleared. */
  lemma TakeAlone(s: State, t: nat) returns (n: nat)
    requires Inv(s) && t < |s.threads| && s.threads[t].PopLoad?
    ensures s.list != [] && s.list[0] < |s.next| == |s.status|
    ensures n == 6 && Alone(s, t, n) == WithPc(FrontTaken(s), t, Idle).(nb_free := s.nb_free - 1,
      nb_inuse := s.nb_inuse + 1)
  {
    var i := PopAlone(s, t);
    var r := Alone(s, t, i);
    var j := HandOutAlone(r, t);
    n := i + j;
    AloneAgain(s, t, i, j);
    var k := s.list[0];
    assert r.threads[t := Idle] == s.threads[t := Idle] && r.status[k := InUse] == s.status[k := InUse];
  }

  /** A range in front of the list, its last object linked to what was there. */
  ghost function RangeFreed(s: State, chain: seq<nat>): State
    requires chain != [] && Last(chain) < |s.next|
  {
    s.(first_free := Some(chain[0]), list := chain + s.list,
       next := s.next[Last(chain) := if s.list == [] then None else Some(s.list[0])],
       status := Mark(s.status, chain, Free))
  }

  /** A push alone. */
  lemma PushAlone(s: State, t: nat) returns (n: nat)
    requires Inv(s) && t < |s.threads| && s.threads[t].PushLoad?
    ensures s.threads[t].chain != [] && Last(s.threads[t].chain) < |s.next|
    ensures var PushLoad(chain, why) := s.threads[t];
      var r := WithPc(RangeFreed(s, chain), t, AfterPush(why, |chain|));
      n == 3 && Alone(s, t, n) == r && Inv(r)
  {
    var PushLoad(chain, why) := s.threads[t];
    assert PcShape(s, s.threads[t]);
    n := 3;
    var s1 := WithPc(s, t, PushStore(chain, s.first_free, why));
    AloneNext(s, t, n, s1);
    var s2 := WithPc(s1, t, PushCas(chain, s.first_free, why)).(next := s.next[Last(chain) := s.first_free]);
    AloneNext(s1, t, n - 1, s2);
    assert s2.threads[t := AfterPush(why, |chain|)] == s.threads[t := AfterPush(why, |chain|)];
    AloneNext(s2, t, n - 2, Next(s2, t, Advance));
  }

  /** Freeing an object or a linked range, alone: it is in front of the list, and
      the counters say so. */
  lemma FreeAlone(s: State, t: nat) returns (n: nat)
    requires Inv(s) && t < |s.threads| && s.threads[t].PushLoad? && s.threads[t].why.Freed?
    ensures s.threads[t].chain != [] && Last(s.threads[t].chain) < |s.next|
    ensures var chain := s.threads[t].chain;
      n == 5 && Alone(s, t, n) == WithPc(RangeFreed(s, chain), t, Idle).(nb_inuse := s.nb_inuse - |chain|,
        nb_free := s.nb_free + |chain|)
  {
    var i := PushAlone(s, t);
    var r := Alone(s, t, i);
    n := i + 2;
    AloneAgain(s, t, i, n - i);
    ReturnAlone(r, t, n - i);
    assert r.threads[t := Idle] == s.threads[t := Idle];
  }

  lemma ReturnAlone(s: State, t: nat, n: nat)
    requires Inv(s) && t < |s.threads| && s.threads[t].CountReturned? && n == 2
    ensures var count := s.threads[t].count;
      Alone(s, t, n) == WithPc(s, t, Idle).(nb_inuse := s.nb_inuse - count, nb_free := s.nb_free + count)
  {
    var count := s.threads[t].count;
    var s1 := WithPc(s, t, CountFreed(count)).(nb_inuse := s.nb_inuse - count);
    AloneNext(s, t, n, s1);
    assert s1.threads[t := Idle] == s.threads[t := Idle];
    AloneNext(s1, t, n - 1, Next(s1, t, Advance));
  }

  /** A new object, held by thread t. */
  function Grown(s: State, t: nat): State {
    s.(next := s.next + [None], status := s.status + [Held(t)])
  }

  /** A new object, free and alone on the list. */
  function Made(s: State): State {
    s.(first_free := Some(|s.next|), list := [|s.next|], next := s.next + [None], status := s.status + [Free],
       nb_allocated := s.nb_allocated + 1, nb_free := s.nb_free + 1)
  }

  lemma GrownThenFreed(s: State, t: nat)
    requires s.list == [] && |s.status| == |s.next|
    ensures RangeFreed(Grown(s, t), [|s.next|]).(nb_allocated := s.nb_allocated + 1, nb_free := s.nb_free + 1)
         == Made(s)
  {
    var k := |s.next|;
    assert Mark(s.status + [Held(t)], [k], Free) == s.status + [Free];
    assert (s.next + [None])[k := None] == s.next + [None];
  }

  /** Making an object, alone, where none is free. */
  lemma MakeAlone(s: State, t: nat) returns (n: nat)
    requires Inv(s) && t < |s.threads| && s.threads[t].AllocTest? && s.list == []
    ensures var r := WithPc(Made(s), t, PopLoad); n == 6 && Alone(s, t, n) == r && Inv(r)
  {
    var k := |s.next|;
    var s1 := WithPc(Grown(s, t), t, PushLoad([k], NewObject));
    n := 6;
    AloneNext(s, t, n, s1);
    var i := PushAlone(s1, t);
    AloneAgain(s1, t, i, n - 1 - i);
    CountsAlone(Alone(s1, t, i), t, n - 1 - i);
    GrownThenFreed(s, t);
    assert s1.threads[t := PopLoad] == s.threads[t := PopLoad];
  }

  lemma CountsAlone(s: State, t: nat, n: nat)
    requires Inv(s) && t < |s.threads| && s.threads[t].CountAllocated? && n == 2
    ensures var r := WithPc(s, t, PopLoad).(nb_allocated := s.nb_allocated + 1, nb_free := s.nb_free + 1);
      Alone(s, t, n) == r && Inv(r)
  {
    var s1 := WithPc(s, t, CountNewFree).(nb_allocated := s.nb_allocated + 1);
    AloneNext(s, t, n, s1);
    assert s1.threads[t := PopLoad] == s.threads[t := PopLoad];
    AloneNext(s1, t, n - 1, Next(s1, t, Advance));
  }

  /** An allocation alone: the object in front of the list is handed out, and if the
      list is empty a new one. */
  lemma AllocAlone(s: State, t: nat) returns (n: nat)
    requires Inv(s) && t < |s.threads| && s.threads[t].AllocTest?
    ensures var m := if s.list == [] then Made(s) else s;
      && m.list[0] < |m.next| == |m.status|
      && n <= 12 && Alone(s, t, n) == WithPc(FrontTaken(m), t, Idle).(nb_free := m.nb_free - 1,
        nb_inuse := m.nb_inuse + 1)
  {
    var m := if s.list == [] then Made(s) else s;
    var i: nat;
    if s.list == [] { i := MakeAlone(s, t); } else { i := LookAlone(s, t); }
    var r := WithPc(m, t, PopLoad);
    var j := TakeAlone(r, t);
    n := i + j;
    AloneAgain(s, t, i, j);
    assert r.threads[t := Idle] == s.threads[t := Idle];
  }

  lemma LookAlone(s: State, t: nat) returns (n: nat)
    requires Inv(s) && t < |s.threads| && s.threads[t].AllocTest? && s.list != []
    ensures var r := WithPc(s, t, PopLoad); n == 1 && Alone(s, t, n) == r && Inv(r)
  {
    n := 1;
    AloneNext(s, t, n, WithPc(s, t, PopLoad));
  }

  // ------------------------------------------------------ the code, in place

  /** The allocator's head and counters, and the objects' links, in place. */
  class Allocator {
    var first_free: Option<nat>
    var next: seq<Option<nat>>
    var nb_free: int
    var nb_inuse: int
    var nb_allocated: int
    var threads: seq<Pc>
    ghost var list: seq<nat>
    ghost var status: seq<Status>

    ghost function View(): State
      reads this
    {
      State(first_free, next, nb_free, nb_inuse, nb_allocated, threads, list, status)
    }

    constructor (users: nat)
      ensures Init(View()) && |threads| == users
    {
      first_free, next, nb_free, nb_inuse, nb_allocated := None, [], 0, 0, 0;
      threads := seq(users, _ => Idle);
      list, status := [], [];
    }

    /** ObjectAllocator_Push. */
    method Push(t: nat)
      requires Inv(View()) && t < |threads| && (threads[t].PushLoad? || threads[t].PushStore? || threads[t].PushCas?)
      modifies this
      ensures View() == PushNext(old(View()), t) && Inv(View())
    {
      ghost var s := View();
      assert PcShape(s, threads[t]);
      var chain, why := threads[t].chain, threads[t].why;
      if threads[t].PushLoad? {
        threads := threads[t := PushStore(chain, first_free, why)];
      } else if threads[t].PushStore? {
        next := next[Last(chain) := threads[t].old_link];
        threads := threads[t := PushCas(chain, threads[t].old_link, why)];
      } else if first_free == threads[t].old_link {
        first_free := Some(chain[0]);
        list, status := chain + list, Mark(status, chain, Free);
        threads := threads[t := AfterPush(why, |chain|)];
      } else {
        threads := threads[t := PushLoad(chain, why)];
      }
      assert View() == PushNext(s, t);
      PushStep(s, t);
    }

    /** The counters of Free and FreeRange. */
    method CountFrees(t: nat)
      requires Inv(View()) && t < |threads| && (threads[t].CountReturned? || threads[t].CountFreed?)
      modifies this
      ensures View() == PushNext(old(View()), t) && Inv(View())
    {
      PushStep(View(), t);
      var count := threads[t].count;
      if threads[t].CountReturned? {
        nb_inuse := nb_inuse - count;
        threads := threads[t := CountFreed(count)];
      } else {
        nb_free := nb_free + count;
        threads := threads[t := Idle];
      }
    }

    /** ObjectAllocator_Alloc up to its pop. */
    method Alloc(t: nat)
      requires Inv(View()) && t < |threads|
      requires var p := threads[t];
        || p.AllocTest? || p.CountAllocated? || p.CountNewFree? || p.CountTaken?
        || p.CountInUse?
      modifies this
      ensures View() == AllocNext(old(View()), t) && Inv(View())
    {
      AllocStep(View(), t);
      assert PcShape(View(), threads[t]);
      match threads[t] {
        case AllocTest =>
          if first_free.Some? {
            threads := threads[t := PopLoad];
          } else {
            threads := threads[t := PushLoad([|next|], NewObject)];
            next, status := next + [None], status + [Held(t)];
          }
        case CountAllocated =>
          nb_allocated := nb_allocated + 1;
          threads := threads[t := CountNewFree];
        case CountNewFree =>
          nb_free := nb_free + 1;
          threads := threads[t := PopLoad];
        case CountTaken(n) =>
          nb_free := nb_free - 1;
          threads := threads[t := CountInUse(n)];
        case CountInUse(n) =>
          nb_inuse := nb_inuse + 1;
          status := status[n := InUse];
          threads := threads[t := Idle];
      }
    }

    /** ObjectAllocator_Pop. */
    method Pop(t: nat)
      requires Inv(View()) && t < |threads|
      requires var p := threads[t]; p.PopLoad? || p.PopNext? || p.PopCas? || p.PopClear?
      modifies this
      ensures View() == AllocNext(old(View()), t) && Inv(View())
    {
      AllocStep(View(), t);
      PopPlace(View(), t);
      match threads[t] {
        case PopLoad =>
          threads := threads[t := PopNext(first_free.value)];
        case PopNext(n) =>
          threads := threads[t := PopCas(n, next[n])];
        case PopCas(n, next_link) =>
          if first_free == Some(n) {
            first_free := next_link;
            list, status := if list == [] then [] else list[1..], status[n := Held(t)];
            threads := threads[t := PopClear(n)];
          } else {
            threads := threads[t := PopLoad];
          }
        case PopClear(n) =>
          next := next[n := None];
          threads := threads[t := CountTaken(n)];
      }
    }
  }
}
