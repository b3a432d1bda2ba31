/**
 The reference-counted lock-free free list of the queue's block pool.

 Every step below is one access to one atomic: the list head, or one node's
 `freeListRefs` or `freeListNext`.  Any number of threads run `add` and
 `try_get`; a thread adds only nodes it owns.
 */
module FreeList {
  import opened Prelude

  const FLAG: int := 0x8000_0000           // SHOULD_BE_ON_FREELIST
  const WORD: int := 0x1_0000_0000         // std::uint32_t wraps here

  function Add32(r: int, d: int): int { (r + d) % WORD }

  /** Where `add_knowing_refcount_is_zero` returns to: its caller was `add`, or
      `try_get`, which then looks at the head value it last saw. */
  datatype Then = Return | Resume(head: Option<nat>)

  /** A thread's place in the code: which access it makes next, with its locals. */
  datatype Pc =
    | Idle
    | AddFlag(n: nat)                                // freeListRefs.fetch_add(FLAG)
    | AddLoadHead(n: nat, k: Then)                   // freeListHead.load
    | AddStoreNext(n: nat, h: Option<nat>, k: Then)  // freeListNext.store
    | AddStoreRefs(n: nat, h: Option<nat>, k: Then)  // freeListRefs.store(1)
    | AddCasHead(n: nat, h: Option<nat>, k: Then)    // freeListHead.compare_exchange
    | AddUndo(n: nat, h: Option<nat>, k: Then)       // freeListRefs.fetch_add(FLAG - 1)
    | GetLoadHead                                    // freeListHead.load
    | GetLoadRefs(n: nat)                            // freeListRefs.load
    | GetCasRefs(n: nat, r: int)                     // freeListRefs.compare_exchange
    | GetLoadNext(n: nat)                            // freeListNext.load
    | GetCasHead(n: nat, next: Option<nat>)          // freeListHead.compare_exchange
    | GetDropTwo(n: nat)                             // freeListRefs.fetch_sub(2)
    | GetDrop(n: nat, h: Option<nat>)                // freeListRefs.fetch_sub(1)

  /** Bookkeeping only: who has the node.  No step reads it, except that a
      thread may call `add` only on a node it owns. */
  datatype Status =
    | OnList
    | Owned(t: nat)      // handed out to (or created by) thread t
    | Deferred           // added, but left to whoever drops the last reference
    | Adding(t: nat)     // thread t runs add_knowing_refcount_is_zero on it

  datatype State = State(
    head: Option<nat>,
    refs: seq<int>,
    next: seq<Option<nat>>,
    threads: seq<Pc>,
    list: seq<nat>,          // bookkeeping: the chain from head
    status: seq<Status>)     // bookkeeping

  datatype Call = CallAdd(n: nat) | CallGet | Advance

  // ------------------------------------------------------------------ steps

  /** try_get's loop test: `while (head != nullptr)`. */
  function LoopTest(h: Option<nat>): Pc {
    if h.None? then Idle else GetLoadRefs(h.value)
  }

  function After(k: Then): Pc {
    match k case Return => Idle case Resume(h) => LoopTest(h)
  }

  ghost predicate NodesInRange(s: State) {
    var N := |s.refs|;
    && |s.next| == N && |s.status| == N
    && (s.head.Some? ==> s.head.value < N)
    && (forall t :: 0 <= t < |s.threads| ==> PcInRange(s.threads[t], N))
    && (forall n :: 0 <= n < N && s.next[n].Some? ==> s.next[n].value < N)
  }

  predicate HeadInRange(h: Option<nat>, N: nat) { h.Some? ==> h.value < N }

  predicate PcInRange(p: Pc, N: nat) {
    (!p.Idle? && !p.GetLoadHead? ==> p.n < N)
    && (p.AddStoreNext? || p.AddStoreRefs? || p.AddCasHead? || p.AddUndo? || p.GetDrop? ==> HeadInRange(p.h, N))
    && (p.GetCasHead? ==> HeadInRange(p.next, N))
    && (p.AddLoadHead? || p.AddStoreNext? || p.AddStoreRefs? || p.AddCasHead? || p.AddUndo? ==>
        (p.k.Resume? ==> HeadInRange(p.k.head, N)))
  }

  /** One access by thread t.  A thread between calls may start one. */
  ghost function Next(s: State, t: nat, c: Call): State
    requires NodesInRange(s) && t < |s.threads|
  {
    match s.threads[t]
    case Idle =>
      (match c
       case CallAdd(n) =>
         if n < |s.refs| && s.status[n] == Owned(t) then s.(threads := s.threads[t := AddFlag(n)]) else s
       case CallGet => s.(threads := s.threads[t := GetLoadHead])
       case Advance => s)
    case AddFlag(n) =>
      var was := s.refs[n];
      s.(refs := s.refs[n := Add32(was, FLAG)],
         threads := s.threads[t := if was == 0 then AddLoadHead(n, Return) else Idle],
         status := s.status[n := if was == 0 then Adding(t) else Deferred])
    case AddLoadHead(n, k) =>
      s.(threads := s.threads[t := AddStoreNext(n, s.head, k)])
    case AddStoreNext(n, h, k) =>
      s.(next := s.next[n := h], threads := s.threads[t := AddStoreRefs(n, h, k)])
    case AddStoreRefs(n, h, k) =>
      s.(refs := s.refs[n := 1], threads := s.threads[t := AddCasHead(n, h, k)])
    case AddCasHead(n, h, k) =>
      if s.head == h then
        s.(head := Some(n), threads := s.threads[t := After(k)],
           list := [n] + s.list, status := s.status[n := OnList])
      else
        s.(threads := s.threads[t := AddUndo(n, s.head, k)])
    case AddUndo(n, h, k) =>
      var was := s.refs[n];
      s.(refs := s.refs[n := Add32(was, FLAG - 1)],
         threads := s.threads[t := if was == 1 then AddStoreNext(n, h, k) else After(k)],
         status := s.status[n := if was == 1 then Adding(t) else Deferred])
    case GetLoadHead =>
      s.(threads := s.threads[t := LoopTest(s.head)])
    case GetLoadRefs(n) =>
      s.(threads := s.threads[t := if s.refs[n] % FLAG == 0 then GetLoadHead else GetCasRefs(n, s.refs[n])])
    case GetCasRefs(n, r) =>
      if s.refs[n] == r then
        s.(refs := s.refs[n := Add32(r, 1)], threads := s.threads[t := GetLoadNext(n)])
      else
        s.(threads := s.threads[t := GetLoadHead])
    case GetLoadNext(n) =>
      s.(threads := s.threads[t := GetCasHead(n, s.next[n])])
    case GetCasHead(n, nx) =>
      if s.head == Some(n) then
        s.(head := nx, threads := s.threads[t := GetDropTwo(n)],
           list := if s.list == [] then [] else s.list[1..], status := s.status[n := Owned(t)])
      else
        s.(threads := s.threads[t := GetDrop(n, s.head)])
    case GetDropTwo(n) =>
      s.(refs := s.refs[n := Add32(s.refs[n], -2)], threads := s.threads[t := Idle])
    case GetDrop(n, h) =>
      var was := s.refs[n];
      s.(refs := s.refs[n := Add32(was, -1)],
         threads := s.threads[t := if was == FLAG + 1 then AddLoadHead(n, Resume(h)) else LoopTest(h)],
         status := if was == FLAG + 1 then s.status[n := Adding(t)] else s.status)
  }

  // -------------------------------------------------------------- invariant

  /** The references thread state p accounts for in node n's count. */
  function Weight(p: Pc, n: nat): nat {
    match p
    case GetLoadNext(m) => if m == n then 1 else 0
    case GetCasHead(m, _) => if m == n then 1 else 0
    case GetDrop(m, _) => if m == n then 1 else 0
    case GetDropTwo(m) => if m == n then 2 else 0
    case AddCasHead(m, _, _) => if m == n then 1 else 0
    case AddUndo(m, _, _) => if m == n then 1 else 0
    case _ => 0
  }

  function Held(ts: seq<Pc>, n: nat): nat {
    if ts == [] then 0 else Weight(ts[0], n) + Held(ts[1..], n)
  }

  lemma {:induction false} HeldUpdate(ts: seq<Pc>, t: nat, p: Pc, n: nat)
    requires t < |ts|
    ensures Held(ts[t := p], n) == Held(ts, n) - Weight(ts[t], n) + Weight(p, n)
    ensures Held(ts, n) >= Weight(ts[t], n)
  {
    if t == 0 {
      assert ts[t := p][1..] == ts[1..];
    } else {
      assert ts[t := p][1..] == ts[1..][t - 1 := p];
      HeldUpdate(ts[1..], t - 1, p, n);
    }
  }

  lemma {:induction false} HeldBound(ts: seq<Pc>, n: nat)
    ensures Held(ts, n) <= 2 * |ts|
  {
    if ts != [] { HeldBound(ts[1..], n); }
  }

  /** t runs add_knowing_refcount_is_zero on n. */
  predicate IsAdder(p: Pc, n: nat) {
    (p.AddLoadHead? || p.AddStoreNext? || p.AddStoreRefs? || p.AddCasHead? || p.AddUndo?) && p.n == n
  }

  /** ... and has not yet stored 1 over the flag. */
  predicate BeforeStoreRefs(p: Pc) { p.AddLoadHead? || p.AddStoreNext? || p.AddStoreRefs? }

  ghost predicate Flagged(s: State, n: nat)
    requires n < |s.status|
  {
    s.status[n].Deferred?
    || (s.status[n].Adding? && s.status[n].t < |s.threads| && BeforeStoreRefs(s.threads[s.status[n].t]))
  }

  /** What node n's reference word says, and what its status promises. */
  ghost predicate NodeOk(s: State, n: nat)
    requires NodesInRange(s) && n < |s.refs|
  {
    && s.refs[n] == (if s.status[n].OnList? then 1 else 0) + (if Flagged(s, n) then FLAG else 0) + Held(s.threads, n)
    && (s.status[n].Deferred? ==> Held(s.threads, n) >= 1)
    && (s.status[n].Adding? ==> s.status[n].t < |s.threads| && IsAdder(s.threads[s.status[n].t], n))
    && (s.status[n].Adding? && Flagged(s, n) ==> Held(s.threads, n) == 0)
    && (s.status[n].Owned? ==> s.status[n].t < |s.threads|)
    && (s.status[n].OnList? <==> n in s.list)
  }

  /** What thread t may rely on at its place in the code. */
  ghost predicate ThreadOk(s: State, t: nat)
    requires NodesInRange(s) && t < |s.threads|
  {
    match s.threads[t]
    case AddFlag(n) => s.status[n] == Owned(t)
    case AddLoadHead(n, _) => s.status[n] == Adding(t)
    case AddStoreNext(n, _, _) => s.status[n] == Adding(t)
    case AddStoreRefs(n, h, _) => s.status[n] == Adding(t) && s.next[n] == h
    case AddCasHead(n, h, _) => s.status[n] == Adding(t) && s.next[n] == h
    case AddUndo(n, _, _) => s.status[n] == Adding(t)
    case GetCasHead(n, nx) => s.next[n] == nx
    case GetDropTwo(n) => s.status[n] == Owned(t)
    case GetCasRefs(n, r) => r % FLAG != 0
    case _ => true
  }

  /** The chain of nodes from the head is `list`, without repetition. */
  ghost predicate Chain(s: State)
    requires NodesInRange(s)
  {
    && (forall i :: 0 <= i < |s.list| ==> s.list[i] < |s.refs|)
    && (forall i, j :: 0 <= i < j < |s.list| ==> s.list[i] != s.list[j])
    && s.head == (if s.list == [] then None else Some(s.list[0]))
    && (forall i :: 0 <= i < |s.list| ==> s.next[s.list[i]] == Successor(s, i))
  }

  ghost function Successor(s: State, i: nat): Option<nat>
    requires i < |s.list|
  {
    if i + 1 < |s.list| then Some(s.list[i + 1]) else None
  }

  ghost predicate Inv(s: State) {
    && NodesInRange(s)
    && 2 * |s.threads| + 2 < FLAG       // the count field cannot reach the flag bit
    && Chain(s)
    && (forall n :: 0 <= n < |s.refs| ==> NodeOk(s, n))
    && (forall t :: 0 <= t < |s.threads| ==> ThreadOk(s, t))
  }

  ghost predicate Init(s: State) {
    && |s.next| == |s.refs| == |s.status|
    && 2 * |s.threads| + 2 < FLAG
    && s.head == None && s.list == []
    && (forall n :: 0 <= n < |s.refs| ==> s.refs[n] == 0 && s.next[n] == None)
    && (forall n :: 0 <= n < |s.refs| ==> s.status[n].Owned? && s.status[n].t < |s.threads|)
    && (forall t :: 0 <= t < |s.threads| ==> s.threads[t] == Idle)
  }

  lemma {:induction false} HeldIdle(ts: seq<Pc>, n: nat)
    requires forall t :: 0 <= t < |ts| ==> ts[t] == Idle
    ensures Held(ts, n) == 0
  {
    if ts != [] { HeldIdle(ts[1..], n); }
  }

  lemma InitInv(s: State)
    requires Init(s)
    ensures Inv(s)
  {
    forall n | 0 <= n < |s.refs| ensures NodeOk(s, n) { HeldIdle(s.threads, n); }
  }

  lemma StepInRange(s: State, t: nat, c: Call)
    requires NodesInRange(s) && t < |s.threads|
    ensures NodesInRange(Next(s, t, c))
    ensures |Next(s, t, c).threads| == |s.threads| && |Next(s, t, c).refs| == |s.refs|
    ensures Next(s, t, c).threads == s.threads[t := Next(s, t, c).threads[t]]
  {
    assert PcInRange(s.threads[t], |s.refs|);
    StepMovesOneThread(s, t, c);
  }

  lemma StepMovesOneThread(s: State, t: nat, c: Call)
    requires NodesInRange(s) && t < |s.threads|
    ensures |Next(s, t, c).threads| == |s.threads| && |Next(s, t, c).refs| == |s.refs|
    ensures Next(s, t, c).threads == s.threads[t := Next(s, t, c).threads[t]]
  {
  }

  /** What the invariant says about thread t's own node just before its step. */
  lemma OwnNode(s: State, t: nat)
    requires Inv(s) && t < |s.threads|
    requires !s.threads[t].Idle? && !s.threads[t].GetLoadHead?
    ensures var p := s.threads[t]; var n := p.n;
      && Weight(p, n) <= Held(s.threads, n) < FLAG - 2
      && (p.GetCasHead? && s.head == Some(n) ==> s.status[n] == OnList && s.list != [] && s.list[0] == n)
      && (p.GetDrop? && s.refs[n] == FLAG + 1 ==> s.status[n] == Deferred && Held(s.threads, n) == 1)
      && (p.GetDrop? && s.refs[n] != FLAG + 1 ==> s.status[n] == Deferred ==> Held(s.threads, n) > 1)
      && (BeforeStoreRefs(p) ==> s.refs[n] == FLAG && Held(s.threads, n) == 0)
      && (p.AddFlag? || p.GetDropTwo? ==> s.refs[n] == Held(s.threads, n))
      && (p.AddCasHead? || p.AddUndo? ==> s.refs[n] == Held(s.threads, n))
  {
    var n := s.threads[t].n;
    assert PcInRange(s.threads[t], |s.refs|);
    assert ThreadOk(s, t);
    assert NodeOk(s, n);
    HeldUpdate(s.threads, t, Idle, n);
    HeldBound(s.threads, n);
  }

  lemma StepKeepsNode(s: State, t: nat, c: Call, n: nat)
    requires Inv(s) && t < |s.threads| && n < |s.refs|
    requires NodesInRange(Next(s, t, c)) && |Next(s, t, c).refs| == |s.refs|
    ensures NodeOk(Next(s, t, c), n)
  {
    var s' := Next(s, t, c);
    var p := s.threads[t];
    HeldUpdate(s.threads, t, s'.threads[t], n);
    HeldBound(s.threads, n);
    assert NodeOk(s, n);
    assert ThreadOk(s, t);
    assert s'.threads == s.threads[t := s'.threads[t]];
    if !p.Idle? && !p.GetLoadHead? {
      OwnNode(s, t);
      if p.n == n {
        StepOnOwnNode(s, t, c);
      } else {
        StepOnOtherNode(s, t, c, n);
      }
    }
  }

  lemma StepOnOwnNode(s: State, t: nat, c: Call)
    requires Inv(s) && t < |s.threads|
    requires !s.threads[t].Idle? && !s.threads[t].GetLoadHead?
    requires NodesInRange(Next(s, t, c)) && |Next(s, t, c).refs| == |s.refs|
    ensures NodeOk(Next(s, t, c), s.threads[t].n)
  {
    var p := s.threads[t];
    OwnNode(s, t);
    assert NodeOk(s, p.n) && ThreadOk(s, t);
    if p.AddFlag? || p.AddUndo? { OwnNodeFlagged(s, t, c); }
    else if p.AddLoadHead? || p.AddStoreNext? { OwnNodeBeforeRefs(s, t, c); }
    else if p.AddStoreRefs? || p.AddCasHead? { OwnNodeBeforeCas(s, t, c); }
    else if p.GetCasHead? {
      assert forall i :: 0 < i < |s.list| ==> s.list[i] != s.list[0];
      OwnNodePop(s, t, c);
    } else if p.GetDrop? || p.GetDropTwo? { OwnNodeDropped(s, t, c); }
    else { OwnNodeReferenced(s, t, c); }
  }

  lemma OwnNodeFlagged(s: State, t: nat, c: Call)
    requires NodesInRange(s) && t < |s.threads| && (s.threads[t].AddFlag? || s.threads[t].AddUndo?)
    requires NodeOk(s, s.threads[t].n) && ThreadOk(s, t)
    requires Held(s.threads, s.threads[t].n) < FLAG - 2
    requires NodesInRange(Next(s, t, c))
    ensures NodeOk(Next(s, t, c), s.threads[t].n)
  {
    HeldUpdate(s.threads, t, Next(s, t, c).threads[t], s.threads[t].n);
  }

  lemma OwnNodeBeforeRefs(s: State, t: nat, c: Call)
    requires NodesInRange(s) && t < |s.threads| && (s.threads[t].AddLoadHead? || s.threads[t].AddStoreNext?)
    requires NodeOk(s, s.threads[t].n) && ThreadOk(s, t)
    requires Held(s.threads, s.threads[t].n) < FLAG - 2
    requires NodesInRange(Next(s, t, c))
    ensures NodeOk(Next(s, t, c), s.threads[t].n)
  {
    HeldUpdate(s.threads, t, Next(s, t, c).threads[t], s.threads[t].n);
  }

  lemma OwnNodeBeforeCas(s: State, t: nat, c: Call)
    requires NodesInRange(s) && t < |s.threads| && (s.threads[t].AddStoreRefs? || s.threads[t].AddCasHead?)
    requires NodeOk(s, s.threads[t].n) && ThreadOk(s, t)
    requires Held(s.threads, s.threads[t].n) < FLAG - 2
    requires NodesInRange(Next(s, t, c))
    ensures NodeOk(Next(s, t, c), s.threads[t].n)
  {
    HeldUpdate(s.threads, t, Next(s, t, c).threads[t], s.threads[t].n);
  }

  lemma OwnNodeDropped(s: State, t: nat, c: Call)
    requires NodesInRange(s) && t < |s.threads| && (s.threads[t].GetDrop? || s.threads[t].GetDropTwo?)
    requires NodeOk(s, s.threads[t].n) && ThreadOk(s, t)
    requires Held(s.threads, s.threads[t].n) < FLAG - 2
    requires NodesInRange(Next(s, t, c))
    ensures NodeOk(Next(s, t, c), s.threads[t].n)
  {
    HeldUpdate(s.threads, t, Next(s, t, c).threads[t], s.threads[t].n);
  }

  lemma OwnNodeReferenced(s: State, t: nat, c: Call)
    requires NodesInRange(s) && t < |s.threads|
      && (s.threads[t].GetLoadRefs? || s.threads[t].GetCasRefs? || s.threads[t].GetLoadNext?)
    requires NodeOk(s, s.threads[t].n) && ThreadOk(s, t)
    requires Held(s.threads, s.threads[t].n) < FLAG - 2
    requires NodesInRange(Next(s, t, c))
    ensures NodeOk(Next(s, t, c), s.threads[t].n)
  {
    var n, s' := s.threads[t].n, Next(s, t, c);
    HeldUpdate(s.threads, t, s'.threads[t], n);
    assert s'.status == s.status && s'.list == s.list && s'.threads == s.threads[t := s'.threads[t]];
    assert IsAdder(s'.threads[t], n) == IsAdder(s.threads[t], n) == false;
  }

  lemma OwnNodePop(s: State, t: nat, c: Call)
    requires NodesInRange(s) && t < |s.threads| && s.threads[t].GetCasHead?
    requires NodeOk(s, s.threads[t].n) && ThreadOk(s, t)
    requires Held(s.threads, s.threads[t].n) < FLAG - 2
    requires s.head == Some(s.threads[t].n) ==>
      s.status[s.threads[t].n].OnList? && s.list != [] && s.list[0] == s.threads[t].n
    requires forall i :: 0 < i < |s.list| ==> s.list[i] != s.list[0]
    requires NodesInRange(Next(s, t, c))
    ensures NodeOk(Next(s, t, c), s.threads[t].n)
  {
    HeldUpdate(s.threads, t, Next(s, t, c).threads[t], s.threads[t].n);
  }

  lemma StepOnOtherNode(s: State, t: nat, c: Call, n: nat)
    requires NodesInRange(s) && t < |s.threads| && n < |s.refs| && NodeOk(s, n)
    requires !s.threads[t].Idle? && !s.threads[t].GetLoadHead? && s.threads[t].n != n
    requires s.threads[t].GetCasHead? && s.head == Some(s.threads[t].n) ==> s.list != [] && s.list[0] == s.threads[t].n
    requires s.status[n] == Adding(t) ==> IsAdder(s.threads[t], n)
    requires NodesInRange(Next(s, t, c))
    ensures NodeOk(Next(s, t, c), n)
  {
    var s' := Next(s, t, c);
    HeldUpdate(s.threads, t, s'.threads[t], n);
    assert n in s'.list <==> n in s.list by {
      if s.threads[t].GetCasHead? && s.head == Some(s.threads[t].n) { assert s.list == [s.threads[t].n] + s'.list; }
    }
  }

  /** Thread t's step leaves what any other thread u relies on. */
  lemma StepKeepsOtherThread(s: State, t: nat, c: Call, u: nat)
    requires NodesInRange(s) && t < |s.threads| && u < |s.threads| && u != t
    requires ThreadOk(s, t) && ThreadOk(s, u)
    requires var p := s.threads[t]; !p.Idle? && !p.GetLoadHead? ==>
      && (p.GetCasHead? && s.head == Some(p.n) ==> s.status[p.n] == OnList)
      && (p.GetDrop? && s.refs[p.n] == FLAG + 1 ==> s.status[p.n] == Deferred)
      && (p.AddStoreNext? ==> Weight(s.threads[u], p.n) == 0)
    requires NodesInRange(Next(s, t, c))
    ensures ThreadOk(Next(s, t, c), u)
  {
  }

  lemma StepKeepsOwnThread(s: State, t: nat, c: Call)
    requires NodesInRange(s) && t < |s.threads| && ThreadOk(s, t)
    requires NodesInRange(Next(s, t, c))
    ensures ThreadOk(Next(s, t, c), t)
  {
  }

  lemma StepKeepsThread(s: State, t: nat, c: Call, u: nat)
    requires Inv(s) && t < |s.threads| && u < |s.threads|
    requires NodesInRange(Next(s, t, c))
    ensures ThreadOk(Next(s, t, c), u)
  {
    var p := s.threads[t];
    assert ThreadOk(s, t) && ThreadOk(s, u);
    if !p.Idle? && !p.GetLoadHead? {
      OwnNode(s, t);
      HeldUpdate(s.threads, u, Idle, p.n);
    }
    if u == t { StepKeepsOwnThread(s, t, c); } else { StepKeepsOtherThread(s, t, c, u); }
  }

  lemma ChainStoreNext(s: State, t: nat, c: Call)
    requires NodesInRange(s) && Chain(s) && t < |s.threads| && s.threads[t].AddStoreNext?
    requires s.threads[t].n !in s.list
    requires NodesInRange(Next(s, t, c))
    ensures Chain(Next(s, t, c))
  {
    var s' := Next(s, t, c);
    forall i | 0 <= i < |s.list| ensures s'.next[s'.list[i]] == Successor(s', i) {
      assert s.next[s.list[i]] == Successor(s, i);
      assert s.list[i] in s.list;
    }
  }

  lemma ChainPush(s: State, t: nat, c: Call)
    requires NodesInRange(s) && Chain(s) && t < |s.threads| && s.threads[t].AddCasHead?
    requires s.threads[t].n !in s.list && s.next[s.threads[t].n] == s.threads[t].h && s.head == s.threads[t].h
    requires NodesInRange(Next(s, t, c))
    ensures Chain(Next(s, t, c))
  {
    var s' := Next(s, t, c);
    forall i | 0 <= i < |s'.list| ensures s'.next[s'.list[i]] == Successor(s', i) {
      if i > 0 { assert s.next[s.list[i - 1]] == Successor(s, i - 1); }
    }
  }

  lemma ChainPop(s: State, t: nat, c: Call)
    requires NodesInRange(s) && Chain(s) && t < |s.threads| && s.threads[t].GetCasHead?
    requires s.head == Some(s.threads[t].n) && s.next[s.threads[t].n] == s.threads[t].next
    requires NodesInRange(Next(s, t, c))
    ensures Chain(Next(s, t, c))
  {
    var s' := Next(s, t, c);
    assert s.next[s.list[0]] == Successor(s, 0);
    forall i | 0 <= i < |s'.list| ensures s'.next[s'.list[i]] == Successor(s', i) {
      assert s.next[s.list[i + 1]] == Successor(s, i + 1);
    }
  }

  lemma StepKeepsChain(s: State, t: nat, c: Call)
    requires Inv(s) && t < |s.threads|
    requires NodesInRange(Next(s, t, c))
    ensures Chain(Next(s, t, c))
  {
    var s' := Next(s, t, c);
    var p := s.threads[t];
    assert ThreadOk(s, t);
    if p.AddStoreNext? {
      assert NodeOk(s, p.n);
      ChainStoreNext(s, t, c);
    } else if p.AddCasHead? && s.head == p.h {
      assert NodeOk(s, p.n);
      ChainPush(s, t, c);
    } else if p.GetCasHead? && s.head == Some(p.n) {
      ChainPop(s, t, c);
    } else {
      SameChain(s, s');
    }
  }

  lemma SameChain(s: State, s': State)
    requires NodesInRange(s) && Chain(s) && NodesInRange(s') && |s'.refs| == |s.refs|
    requires s'.list == s.list && s'.next == s.next && s'.head == s.head
    ensures Chain(s')
  {
    forall i | 0 <= i < |s.list| ensures s'.next[s'.list[i]] == Successor(s', i) {
      assert s.next[s.list[i]] == Successor(s, i);
    }
  }

  lemma StepKeepsInv(s: State, t: nat, c: Call)
    requires Inv(s) && t < |s.threads|
    ensures Inv(Next(s, t, c))
  {
    var s' := Next(s, t, c);
    StepInRange(s, t, c);
    StepKeepsChain(s, t, c);
    forall n | 0 <= n < |s'.refs| ensures NodeOk(s', n) { StepKeepsNode(s, t, c, n); }
    forall u | 0 <= u < |s'.threads| ensures ThreadOk(s', u) { StepKeepsThread(s, t, c, u); }
  }

  // ------------------------------------------------------------ whole runs

  datatype Event = Event(t: nat, c: Call)

  /** Any interleaving: each event lets one thread make its next access. */
  ghost function Run(s: State, es: seq<Event>): (r: State)
    requires Inv(s)
    ensures Inv(r) && |r.refs| == |s.refs| && |r.threads| == |s.threads|
    decreases |es|
  {
    if es == [] then s
    else if es[0].t < |s.threads| then
      StepKeepsInv(s, es[0].t, es[0].c);
      StepInRange(s, es[0].t, es[0].c);
      Run(Next(s, es[0].t, es[0].c), es[1..])
    else Run(s, es[1..])
  }

  /** The position of n on the list, if any, is its only one. */
  ghost predicate OnListOnce(s: State, n: nat) {
    exists i :: 0 <= i < |s.list| && s.list[i] == n && forall j :: 0 <= j < |s.list| && s.list[j] == n ==> j == i
  }

  /** Following `freeListNext` k times from the head. */
  ghost function Walk(s: State, k: nat): Option<nat>
    requires NodesInRange(s)
  {
    if k == 0 then s.head
    else match Walk(s, k - 1)
      case None => None
      case Some(n) => if n < |s.next| then s.next[n] else None
  }

  /** `list` is what a traversal of the real pointers sees, and it ends in null. */
  lemma {:induction false} WalkIsList(s: State, k: nat)
    requires Inv(s) && k <= |s.list|
    ensures Walk(s, k) == if k < |s.list| then Some(s.list[k]) else None
  {
    if k > 0 {
      WalkIsList(s, k - 1);
      assert s.next[s.list[k - 1]] == Successor(s, k - 1);
    }
  }

  /** In every reachable state a node is on the list exactly once, or owned by
      one thread, or awaiting its one pending add: carried out by one thread, or
      left to the threads that still hold references, of which there is one. */
  lemma EveryNodeAccountedFor(s0: State, es: seq<Event>, n: nat)
    requires Init(s0) && n < |s0.refs|
    ensures Inv(s0)
    ensures var s := Run(s0, es);
      match s.status[n]
      case OnList => OnListOnce(s, n) && (forall t :: 0 <= t < |s.threads| ==> !IsAdder(s.threads[t], n))
      case Owned(o) => o < |s.threads| && n !in s.list && s.refs[n] < FLAG
                       && (forall t :: 0 <= t < |s.threads| ==> !IsAdder(s.threads[t], n))
      case Deferred => n !in s.list && s.refs[n] > FLAG
                       && (forall t :: 0 <= t < |s.threads| ==> !IsAdder(s.threads[t], n))
      case Adding(a) => n !in s.list
                        && (forall t :: 0 <= t < |s.threads| ==> (IsAdder(s.threads[t], n) <==> t == a))
  {
    InitInv(s0);
    var s := Run(s0, es);
    assert NodeOk(s, n);
    HeldBound(s.threads, n);
    forall t | 0 <= t < |s.threads| && IsAdder(s.threads[t], n) ensures s.status[n] == Adding(t) {
      assert ThreadOk(s, t);
    }
    if s.status[n].OnList? {
      var i :| 0 <= i < |s.list| && s.list[i] == n;
    }
  }

  /** No ABA: a winning head CAS in try_get installs the node's true successor,
      takes exactly the front node off the list and hands it to that thread; the
      code's assertion that the flag is clear holds there. */
  lemma WinningPopInstallsSuccessor(s: State, t: nat, c: Call)
    requires Inv(s) && t < |s.threads| && s.threads[t].GetCasHead? && s.head == Some(s.threads[t].n)
    ensures s.list != [] && s.threads[t].n == s.list[0] && s.threads[t].next == Successor(s, 0)
    ensures Next(s, t, c).head == Successor(s, 0) && Next(s, t, c).list == s.list[1..]
    ensures s.status[s.list[0]] == OnList && Next(s, t, c).status == s.status[s.list[0] := Owned(t)]
    ensures s.refs[s.list[0]] < FLAG
  {
    OwnNode(s, t);
    assert ThreadOk(s, t) && NodeOk(s, s.list[0]);
    assert s.next[s.list[0]] == Successor(s, 0);
  }

  /** Likewise a winning CAS in add puts the node in front of the whole list. */
  lemma WinningAddPushesFront(s: State, t: nat, c: Call)
    requires Inv(s) && t < |s.threads| && s.threads[t].AddCasHead? && s.head == s.threads[t].h
    ensures s.threads[t].n !in s.list
    ensures Next(s, t, c).list == [s.threads[t].n] + s.list
    ensures Next(s, t, c).head == Some(s.threads[t].n) && Next(s, t, c).next[s.threads[t].n] == s.head
  {
    assert ThreadOk(s, t) && NodeOk(s, s.threads[t].n);
  }

  /** A node stays with the thread it was handed to until that thread adds it. */
  lemma OnlyTheOwnerGivesUp(s: State, t: nat, c: Call, n: nat, o: nat)
    requires Inv(s) && t < |s.threads| && n < |s.refs| && s.status[n] == Owned(o)
    requires NodesInRange(Next(s, t, c)) && n < |Next(s, t, c).status|
    ensures Next(s, t, c).status[n] == Owned(o) || (t == o && s.threads[t] == AddFlag(n))
  {
    var p := s.threads[t];
    assert ThreadOk(s, t) && NodeOk(s, n);
    if !p.Idle? && !p.GetLoadHead? { OwnNode(s, t); }
  }

  /** When every call has returned, nothing is pending: each node is on the
      list, with one reference, or with its owner, with none. */
  lemma QuiescentLosesNothing(s0: State, es: seq<Event>, n: nat)
    requires Init(s0) && n < |s0.refs| && Inv(s0)
    requires forall t :: 0 <= t < |s0.threads| ==> Run(s0, es).threads[t] == Idle
    ensures var s := Run(s0, es);
      (s.status[n] == OnList && OnListOnce(s, n) && s.refs[n] == 1)
        || (s.status[n].Owned? && n !in s.list && s.refs[n] == 0)
  {
    var s := Run(s0, es);
    EveryNodeAccountedFor(s0, es, n);
    HeldIdle(s.threads, n);
    assert NodeOk(s, n);
  }

  // ------------------------------------------------- what a call comes to

  /** Thread t makes its next n accesses with nobody in between. */
  ghost function Alone(s: State, t: nat, n: nat): (r: State)
    requires NodesInRange(s) && t < |s.threads|
    ensures NodesInRange(r) && |r.refs| == |s.refs| && |r.threads| == |s.threads|
    decreases n
  {
    if n == 0 then s
    else
      StepInRange(s, t, Advance);
      Alone(Next(s, t, Advance), t, n - 1)
  }

  lemma {:induction false} AloneAgain(s: State, t: nat, m: nat, n: nat)
    requires NodesInRange(s) && t < |s.threads|
    ensures Alone(s, t, m + n) == Alone(Alone(s, t, m), t, n)
    decreases m
  {
    if m > 0 {
      StepInRange(s, t, Advance);
      AloneAgain(Next(s, t, Advance), t, m - 1, n);
    }
  }

  /** What one more access does. */
  lemma AloneNext(s: State, t: nat, m: nat, r: State)
    requires NodesInRange(s) && t < |s.threads| && Alone(s, t, m) == r
    ensures Alone(s, t, m + 1) == Next(r, t, Advance)
  {
    StepInRange(r, t, Advance);
    AloneAgain(s, t, m, 1);
    assert Alone(r, t, 1) == Alone(Next(r, t, Advance), t, 0);
  }

  /** The list's front node can be referenced: its count is not zero. */
  lemma FrontCounted(s: State)
    requires Inv(s) && s.list != []
    ensures s.head == Some(s.list[0]) && s.list[0] < |s.refs| && 1 <= s.refs[s.list[0]] < FLAG - 2
    ensures s.status[s.list[0]] == OnList && s.next[s.list[0]] == Successor(s, 0)
  {
    assert NodeOk(s, s.list[0]);
    HeldBound(s.threads, s.list[0]);
  }

  function At(s: State, t: nat, p: Pc): State
    requires t < |s.threads|
  {
    s.(threads := s.threads[t := p])
  }

  /** A reference is taken. */
  lemma ReferenceAlone(s: State, t: nat, n: nat)
    requires NodesInRange(s) && t < |s.threads| && s.threads[t].GetLoadHead?
    requires s.head == Some(n) && n < |s.refs| && 1 <= s.refs[n] < FLAG - 2
    ensures Alone(s, t, 3) == At(s, t, GetLoadNext(n)).(refs := s.refs[n := s.refs[n] + 1])
  {
    var s1, s2 := At(s, t, GetLoadRefs(n)), At(s, t, GetCasRefs(n, s.refs[n]));
    assert Alone(s, t, 1) == s1 by { AloneNext(s, t, 0, s); }
    assert Alone(s, t, 2) == s2 by { AloneNext(s, t, 1, s1); }
    AloneNext(s, t, 2, s2);
  }

  /** ... and with it the node is taken off the list. */
  lemma PopAlone(s: State, t: nat, n: nat)
    requires NodesInRange(s) && t < |s.threads| && s.threads[t] == GetLoadNext(n)
    requires s.head == Some(n) && n < |s.refs| && 2 <= s.refs[n] < FLAG && s.list != []
    ensures Alone(s, t, 3) == At(s, t, Idle).(head := s.next[n], refs := s.refs[n := s.refs[n] - 2],
      list := s.list[1..], status := s.status[n := Owned(t)])
  {
    var s1 := At(s, t, GetCasHead(n, s.next[n]));
    var s2 := At(s, t, GetDropTwo(n)).(head := s.next[n], list := s.list[1..], status := s.status[n := Owned(t)]);
    assert Alone(s, t, 1) == s1 by { AloneNext(s, t, 0, s); }
    assert Alone(s, t, 2) == s2 by { AloneNext(s, t, 1, s1); }
    AloneNext(s, t, 2, s2);
  }

  /** try_get, not disturbed, on a list that is not empty: it returns the front
      node to its caller, and the rest of the list stays. */
  lemma TryGetAlone(s: State, t: nat)
    requires Inv(s) && t < |s.threads| && s.threads[t].GetLoadHead? && s.list != []
    ensures var n := s.list[0];
      && n < |s.refs|
      && Alone(s, t, 6) == At(s, t, Idle).(head := Successor(s, 0), refs := s.refs[n := s.refs[n] - 1],
           list := s.list[1..], status := s.status[n := Owned(t)])
  {
    FrontCounted(s);
    var n := s.list[0];
    ReferenceAlone(s, t, n);
    ReferencedThenPopped(s, t, n, At(s, t, GetLoadNext(n)).(refs := s.refs[n := s.refs[n] + 1]));
  }

  lemma ReferencedThenPopped(s: State, t: nat, n: nat, r: State)
    requires NodesInRange(s) && t < |s.threads| && Alone(s, t, 3) == r && n < |s.refs|
    requires r == At(s, t, GetLoadNext(n)).(refs := s.refs[n := s.refs[n] + 1])
    requires s.head == Some(n) && 1 <= s.refs[n] < FLAG - 2 && s.list != []
    ensures Alone(s, t, 6) == At(s, t, Idle).(head := s.next[n], refs := s.refs[n := s.refs[n] - 1],
      list := s.list[1..], status := s.status[n := Owned(t)])
  {
    PopAlone(r, t, n);
    AloneAgain(s, t, 3, 3);
    assert At(r, t, Idle).threads == At(s, t, Idle).threads;
    assert r.refs[n := r.refs[n] - 2] == s.refs[n := s.refs[n] - 1];
  }

  /** ... and on an empty list it returns null at once. */
  lemma TryGetFromEmpty(s: State, t: nat)
    requires Inv(s) && t < |s.threads| && s.threads[t].GetLoadHead? && s.list == []
    ensures Alone(s, t, 1) == At(s, t, Idle)
  {
    AloneNext(s, t, 0, s);
  }

  /** add_knowing_refcount_is_zero, not disturbed: the node is in front of the list. */
  lemma PushAlone(s: State, t: nat)
    requires NodesInRange(s) && t < |s.threads| && s.threads[t].AddLoadHead?
    ensures var AddLoadHead(n, k) := s.threads[t];
      && n < |s.refs|
      && Alone(s, t, 4) == At(s, t, After(k)).(head := Some(n), refs := s.refs[n := 1], next := s.next[n := s.head],
           list := [n] + s.list, status := s.status[n := OnList])
  {
    var AddLoadHead(n, k) := s.threads[t];
    assert PcInRange(s.threads[t], |s.refs|);
    var h := s.head;
    AloneNext(s, t, 0, s);
    AloneNext(s, t, 1, At(s, t, AddStoreNext(n, h, k)));
    AloneNext(s, t, 2, At(s, t, AddStoreRefs(n, h, k)).(next := s.next[n := h]));
    AloneNext(s, t, 3, At(s, t, AddCasHead(n, h, k)).(next := s.next[n := h], refs := s.refs[n := 1]));
  }

  /** One access that leads to it, and then the push. */
  lemma ThenPushed(s: State, t: nat, n: nat, k: Then, r: State)
    requires NodesInRange(s) && t < |s.threads| && Alone(s, t, 1) == r && n < |s.refs|
    requires r == At(s, t, AddLoadHead(n, k)).(refs := r.refs, status := r.status)
    requires |r.refs| == |s.refs| && r.refs == s.refs[n := r.refs[n]]
    requires |r.status| == |s.status| && r.status == s.status[n := r.status[n]]
    ensures Alone(s, t, 5) == At(s, t, After(k)).(head := Some(n), refs := s.refs[n := 1], next := s.next[n := s.head],
      list := [n] + s.list, status := s.status[n := OnList])
  {
    PushAlone(r, t);
    AloneAgain(s, t, 1, 4);
    assert At(r, t, After(k)).threads == At(s, t, After(k)).threads;
    assert r.refs[n := 1] == s.refs[n := 1] && r.status[n := OnList] == s.status[n := OnList];
  }

  /** add, not disturbed: the node is in front of the list; or, if others still
      hold references to it, left to the last of them. */
  lemma AddAlone(s: State, t: nat)
    requires Inv(s) && t < |s.threads| && s.threads[t].AddFlag?
    ensures var n := s.threads[t].n;
      && n < |s.refs|
      && (s.refs[n] == 0 ==> Alone(s, t, 5) == At(s, t, Idle).(head := Some(n), refs := s.refs[n := 1],
           next := s.next[n := s.head], list := [n] + s.list, status := s.status[n := OnList]))
      && (s.refs[n] != 0 ==> Alone(s, t, 1) == At(s, t, Idle).(refs := s.refs[n := s.refs[n] + FLAG],
           status := s.status[n := Deferred]))
  {
    OwnNode(s, t);
    FlagAlone(s, t, s.threads[t].n);
  }

  lemma FlagAlone(s: State, t: nat, n: nat)
    requires NodesInRange(s) && t < |s.threads| && s.threads[t] == AddFlag(n) && n < |s.refs| && 0 <= s.refs[n] < FLAG
    ensures s.refs[n] == 0 ==> Alone(s, t, 5) == At(s, t, Idle).(head := Some(n), refs := s.refs[n := 1],
      next := s.next[n := s.head], list := [n] + s.list, status := s.status[n := OnList])
    ensures s.refs[n] != 0 ==> Alone(s, t, 1) == At(s, t, Idle).(refs := s.refs[n := s.refs[n] + FLAG],
      status := s.status[n := Deferred])
  {
    AloneNext(s, t, 0, s);
    if s.refs[n] == 0 {
      ThenPushed(s, t, n, Return, At(s, t, AddLoadHead(n, Return)).(refs := s.refs[n := FLAG],
        status := s.status[n := Adding(t)]));
    }
  }

  /** The thread that drops the last reference to a node whose add was left to it
      puts the node on the list, and goes on with its own call. */
  lemma LastDropAdds(s: State, t: nat)
    requires Inv(s) && t < |s.threads| && s.threads[t].GetDrop?
    requires s.status[s.threads[t].n].Deferred? && Held(s.threads, s.threads[t].n) == 1
    ensures var GetDrop(n, h) := s.threads[t];
      && n < |s.refs|
      && Alone(s, t, 5) == At(s, t, LoopTest(h)).(head := Some(n), refs := s.refs[n := 1],
           next := s.next[n := s.head], list := [n] + s.list, status := s.status[n := OnList])
  {
    var GetDrop(n, h) := s.threads[t];
    OwnNode(s, t);
    assert NodeOk(s, n);
    LastDropAlone(s, t, n, h);
  }

  lemma LastDropAlone(s: State, t: nat, n: nat, h: Option<nat>)
    requires NodesInRange(s) && t < |s.threads| && s.threads[t] == GetDrop(n, h) && n < |s.refs|
      && s.refs[n] == FLAG + 1
    ensures Alone(s, t, 5) == At(s, t, LoopTest(h)).(head := Some(n), refs := s.refs[n := 1],
      next := s.next[n := s.head], list := [n] + s.list, status := s.status[n := OnList])
  {
    AloneNext(s, t, 0, s);
    ThenPushed(s, t, n, Resume(h), At(s, t, AddLoadHead(n, Resume(h))).(refs := s.refs[n := FLAG],
      status := s.status[n := Adding(t)]));
  }

  /** Inside try_get, the adds it takes over included. */
  predicate InGet(p: Pc) {
    || p.GetLoadHead? || p.GetLoadRefs? || p.GetCasRefs? || p.GetLoadNext? || p.GetCasHead?
    || p.GetDropTwo? || p.GetDrop?
    || ((p.AddLoadHead? || p.AddStoreNext? || p.AddStoreRefs? || p.AddCasHead? || p.AddUndo?) && p.k.Resume?)
  }

  /** Inside try_get, with a null head as the last seen. */
  predicate SawNull(p: Pc) {
    || (p.GetDrop? && p.h.None?)
    || ((p.AddLoadHead? || p.AddStoreNext? || p.AddStoreRefs? || p.AddCasHead? || p.AddUndo?) && p.k == Resume(None))
  }

  lemma RunFirst(s: State, es: seq<Event>, n: nat)
    requires Inv(s) && n < |es|
    ensures if es[0].t >= |s.threads| then Run(s, es[..n + 1]) == Run(s, es[1..][..n])
            else Inv(Next(s, es[0].t, es[0].c)) && Run(s, es[..n + 1]) == Run(Next(s, es[0].t, es[0].c), es[1..][..n])
  {
    assert es[..n + 1][0] == es[0] && es[..n + 1][1..] == es[1..][..n];
    if es[0].t < |s.threads| { StepKeepsInv(s, es[0].t, es[0].c); }
  }

  /** The n-th event of a run is a step from where the events before it lead. */
  lemma {:induction false} RunOn(s: State, es: seq<Event>, n: nat)
    requires Inv(s) && n < |es|
    ensures var r := Run(s, es[..n]);
      Run(s, es[..n + 1]) == if es[n].t < |s.threads| then Next(r, es[n].t, es[n].c) else r
    decreases n
  {
    RunFirst(s, es, n);
    if n == 0 {
      assert es[1..][..0] == [];
    } else {
      RunFirst(s, es, n - 1);
      if es[0].t < |s.threads| {
        OneStep(s, es[0]);
        RunOn(Next(s, es[0].t, es[0].c), es[1..], n - 1);
      } else {
        RunOn(s, es[1..], n - 1);
      }
    }
  }

  lemma OneStep(s: State, e: Event)
    requires Inv(s) && e.t < |s.threads|
    ensures Inv(Next(s, e.t, e.c)) && |Next(s, e.t, e.c).threads| == |s.threads|
  {
    StepKeepsInv(s, e.t, e.c);
    StepInRange(s, e.t, e.c);
  }

  /** From the k-th event on, when the list was empty, t has been inside one try_get. */
  ghost predicate EmptySince(s0: State, es: seq<Event>, t: nat, k: nat)
    requires Inv(s0) && t < |s0.threads|
  {
    && k <= |es| && Run(s0, es[..k]).list == []
    && forall j :: k <= j <= |es| ==> InGet(Run(s0, es[..j]).threads[t])
  }

  /** A null head is one that was read during the call, with the list empty. */
  lemma {:induction false} NullWasSeen(s0: State, es: seq<Event>, t: nat) returns (k: nat)
    requires Init(s0) && Inv(s0) && t < |s0.threads| && SawNull(Run(s0, es).threads[t])
    ensures EmptySince(s0, es, t, k)
    decreases |es|
  {
    var m := |es| - 1;
    var es' := es[..m];
    assert es[..m + 1] == es;
    RunOn(s0, es, m);
    if SawNull(Run(s0, es').threads[t]) {
      k := NullWasSeen(s0, es', t);
      StillInGet(s0, es, t, k);
    } else {
      k := m;
      NullComesFrom(Run(s0, es'), es[m], t);
    }
  }

  lemma StillInGet(s0: State, es: seq<Event>, t: nat, k: nat)
    requires Inv(s0) && t < |s0.threads| && es != [] && EmptySince(s0, es[..|es| - 1], t, k)
    requires InGet(Run(s0, es).threads[t])
    ensures EmptySince(s0, es, t, k)
  {
    var es' := es[..|es| - 1];
    assert es[..|es|] == es;
    assert forall j :: 0 <= j < |es| ==> es[..j] == es'[..j];
  }

  lemma NullComesFrom(s: State, e: Event, t: nat)
    requires Inv(s) && t < |s.threads| && !SawNull(s.threads[t]) && e.t < |s.threads|
    requires SawNull(Next(s, e.t, e.c).threads[t])
    ensures e.t == t && s.threads[t].GetCasHead? && s.head.None?
  {
    StepMovesOneThread(s, e.t, e.c);
  }

  /** In any run, a try_get that is about to return without a node has seen the
      list empty during the call. */
  lemma NullMeansEmpty(s0: State, es: seq<Event>, t: nat) returns (k: nat)
    requires Init(s0) && Inv(s0) && t < |s0.threads|
    requires var s := Run(s0, es);
      InGet(s.threads[t]) && !s.threads[t].GetDropTwo? && Next(s, t, Advance).threads[t].Idle?
    ensures EmptySince(s0, es, t, k)
  {
    var s := Run(s0, es);
    if s.threads[t].GetLoadHead? {
      k := |es|;
      assert es[..k] == es;
    } else {
      k := NullWasSeen(s0, es, t);
    }
  }

  // ------------------------------------------------------ the code, in place

  /** The list and its nodes as the code has them: words overwritten in place. */
  class List {
    var head: Option<nat>
    const refs: array<int>
    const nexts: array<Option<nat>>
    var threads: seq<Pc>
    ghost var list: seq<nat>
    ghost var status: seq<Status>

    ghost function View(): State
      reads this, refs, nexts
    {
      State(head, refs[..], nexts[..], threads, list, status)
    }

    /** No node on the list yet: each has an owner, free to add it. */
    constructor (owners: seq<nat>, users: nat)
      requires 2 * users + 2 < FLAG && forall n :: 0 <= n < |owners| ==> owners[n] < users
      ensures Init(View()) && |threads| == users && refs.Length == |owners| && fresh(refs) && fresh(nexts)
      ensures forall n :: 0 <= n < |owners| ==> status[n] == Owned(owners[n])
    {
      refs := new int[|owners|](_ => 0);
      nexts := new Option<nat>[|owners|](_ => None);
      head, list := None, [];
      threads := seq(users, _ => Idle);
      status := seq(|owners|, n requires 0 <= n < |owners| => Owned(owners[n]));
    }

    /** `add` and the access it makes next. */
    method Add(t: nat)
      requires Inv(View()) && t < |threads|
      requires var p := threads[t];
        || p.AddFlag? || p.AddLoadHead? || p.AddStoreNext? || p.AddStoreRefs?
        || p.AddCasHead? || p.AddUndo?
      modifies this, refs, nexts
      ensures View() == Next(old(View()), t, Advance) && Inv(View())
    {
      StepKeepsInv(View(), t, Advance);
      assert ThreadOk(View(), t);
      var p := threads[t];
      var n := p.n;
      match p {
        case AddFlag(_) =>
          var was := refs[n];
          refs[n] := Add32(was, FLAG);
          status := status[n := if was == 0 then Adding(t) else Deferred];
          threads := threads[t := if was == 0 then AddLoadHead(n, Return) else Idle];
        case AddLoadHead(_, k) =>
          threads := threads[t := AddStoreNext(n, head, k)];
        case AddStoreNext(_, h, k) =>
          nexts[n] := h;
          threads := threads[t := AddStoreRefs(n, h, k)];
        case AddStoreRefs(_, h, k) =>
          refs[n] := 1;
          threads := threads[t := AddCasHead(n, h, k)];
        case AddCasHead(_, h, k) =>
          if head == h {
            head := Some(n);
            list := [n] + list;
            status := status[n := OnList];
            threads := threads[t := After(k)];
          } else {
            threads := threads[t := AddUndo(n, head, k)];
          }
        case AddUndo(_, h, k) =>
          var was := refs[n];
          refs[n] := Add32(was, FLAG - 1);
          status := status[n := if was == 1 then Adding(t) else Deferred];
          threads := threads[t := if was == 1 then AddStoreNext(n, h, k) else After(k)];
      }
    }

    /** `try_get` and the access it makes next. */
    method TryGet(t: nat)
      requires Inv(View()) && t < |threads|
      requires var p := threads[t];
        || p.GetLoadHead? || p.GetLoadRefs? || p.GetCasRefs? || p.GetLoadNext?
        || p.GetCasHead? || p.GetDropTwo? || p.GetDrop?
      modifies this, refs
      ensures View() == Next(old(View()), t, Advance) && Inv(View())
    {
      StepKeepsInv(View(), t, Advance);
      assert ThreadOk(View(), t) && PcInRange(threads[t], refs.Length);
      match threads[t] {
        case GetLoadHead =>
          threads := threads[t := LoopTest(head)];
        case GetLoadRefs(n) =>
          threads := threads[t := if refs[n] % FLAG == 0 then GetLoadHead else GetCasRefs(n, refs[n])];
        case GetCasRefs(n, r) =>
          if refs[n] == r {
            refs[n] := Add32(r, 1);
            threads := threads[t := GetLoadNext(n)];
          } else {
            threads := threads[t := GetLoadHead];
          }
        case GetLoadNext(n) =>
          threads := threads[t := GetCasHead(n, nexts[n])];
        case GetCasHead(n, next) =>
          if head == Some(n) {
            head := next;
            list := if list == [] then [] else list[1..];
            status := status[n := Owned(t)];
            threads := threads[t := GetDropTwo(n)];
          } else {
            threads := threads[t := GetDrop(n, head)];
          }
        case GetDropTwo(n) =>
          refs[n] := Add32(refs[n], -2);
          threads := threads[t := Idle];
        case GetDrop(n, h) =>
          var was := refs[n];
          refs[n] := Add32(was, -1);
          if was == FLAG + 1 {
            status := status[n := Adding(t)];
            threads := threads[t := AddLoadHead(n, Resume(h))];
          } else {
            threads := threads[t := LoopTest(h)];
          }
      }
    }
  }
}
