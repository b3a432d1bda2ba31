/**
 The cuckoo map's lock protocol: buckets share a limited number of spinlocks
 ("stripes"), kept in a list of lock containers of which the last is current.
 Threads lock one, two or three buckets; a thread that needs the whole table
 locks every container from the current one on, and may then grow the table,
 appending a larger container.  Resizes here only grow.

 A step is one access to a spinlock, to the hashpower, or to the container list.
 */
module StripedLocks {
  import opened Prelude
  import opened Modular
  import Bits

  // ---------------------------------------------------------------- stripes

  const MAX_NUM_LOCKS: nat := 0x1_0000

  /** lock_ind */
  function LockInd(bucket: nat): nat { bucket % MAX_NUM_LOCKS }

  /** ... is the source's bucket_ind & (kMaxNumLocks - 1). */
  lemma LockIndIsMask(bucket: nat)
    ensures LockInd(bucket) == Bits.And(bucket, MAX_NUM_LOCKS - 1)
  {
    assert Pow2(16) == MAX_NUM_LOCKS by { assert Pow2(4) == 16 && Pow2(8) == 256 && Pow2(12) == 4096; }
    Bits.AndMask(bucket, 16);
  }

  function Min(a: nat, b: nat): nat { if a < b then a else b }

  /** The stripes of one, two or three buckets, in the order they are locked:
      the source's swaps, and no stripe twice. */
  function LockOrder(buckets: seq<nat>): (r: seq<nat>)
    requires 1 <= |buckets| <= 3
  {
    var l0 := LockInd(buckets[0]);
    if |buckets| == 1 then [l0]
    else
      var l1 := LockInd(buckets[1]);
      if |buckets| == 2 then
        var (a, b) := if l1 < l0 then (l1, l0) else (l0, l1);
        if b != a then [a, b] else [a]
      else
        var l2 := LockInd(buckets[2]);
        var (b1, c1) := if l2 < l1 then (l2, l1) else (l1, l2);
        var (a1, c2) := if c1 < l0 then (c1, l0) else (l0, c1);
        var (a2, b2) := if b1 < a1 then (b1, a1) else (a1, b1);
        [a2] + (if b2 != a2 then [b2] else []) + (if c2 != b2 then [c2] else [])
  }

  /** The order is strictly increasing and covers exactly the buckets' stripes. */
  lemma LockOrderCorrect(buckets: seq<nat>)
    requires 1 <= |buckets| <= 3
    ensures var r := LockOrder(buckets);
      && 1 <= |r| <= 3
      && (forall i, j :: 0 <= i < j < |r| ==> r[i] < r[j])
      && (forall l :: l in r <==> exists k :: 0 <= k < |buckets| && LockInd(buckets[k]) == l)
  {
    var r := LockOrder(buckets);
    forall l | l in r ensures exists k :: 0 <= k < |buckets| && LockInd(buckets[k]) == l {
      if l == LockInd(buckets[0]) {
      } else if |buckets| > 1 && l == LockInd(buckets[1]) {
      } else if |buckets| > 2 {
        assert l == LockInd(buckets[2]);
      }
    }
    forall k | 0 <= k < |buckets| ensures LockInd(buckets[k]) in r {}
  }

  /** A stripe index fits in any container made for at least that many buckets. */
  lemma StripeInRange(b: nat, hp: nat)
    requires b < Pow2(hp)
    ensures LockInd(b) < Min(MAX_NUM_LOCKS, Pow2(hp))
  {
    if b < MAX_NUM_LOCKS { DivUnique(b, 0, b, MAX_NUM_LOCKS); }
  }

  // ------------------------------------------------------------------ state

  /** A request to lock buckets: the hashpower they were computed with, the
      buckets, and their stripes in locking order. */
  datatype Op = Op(hp: nat, buckets: seq<nat>, order: seq<nat>)

  datatype Pc =
    | Idle
    | Known(hp: nat)                              // hp = hashpower()
    | GetLocks(op: Op)                            // locks = all_locks_.back()
    | Acquire(op: Op, c: nat, n: nat)             // locks[order[n]].lock(), n already taken
    | Check(op: Op, c: nat)                       // hashpower() != hp?
    | GiveUp(op: Op, c: nat)                      // lock.unlock(), then throw
    | Holding(op: Op, c: nat)                     // the caller works on its buckets
    | Unlocking(op: Op, c: nat, left: set<nat>)   // stripes not released yet
    | AllStart                                    // --all_locks_.end()
    | AllAcquire(first: nat, c: nat, l: nat)      // container c, l taken; then the test for end()
    | AllHeld(first: nat)                         // the caller has the whole table
    | SetHp(first: nat, hp: nat)                  // locks resized; buckets_.swap
    | AllRelease(c: nat, l: nat, last: nat)       // container c, l released; then the test for end()

  datatype State = State(
    hashpower: nat,
    containers: seq<seq<Option<nat>>>,   // all_locks_: each lock's holder
    threads: seq<Pc>,
    born: seq<nat>)                      // bookkeeping: the hashpower when a container was appended

  function AllOf(n: nat, v: Option<nat>): (r: seq<Option<nat>>)
    ensures |r| == n && forall l :: 0 <= l < n ==> r[l] == v
  {
    seq(n, _ => v)
  }

  /** What a thread does next, where it has a choice. */
  datatype Action =
    | Advance
    | Want(buckets: seq<nat>)
    | Unlock
    | Release(l: nat)
    | LockAll
    | Grow(orig_hp: nat, new_hp: nat)

  function Back(s: State): int { |s.containers| - 1 }

  ghost predicate Shape(s: State) {
    && s.containers != [] && |s.born| == |s.containers|
    && forall t :: 0 <= t < |s.threads| ==> PcShape(s, s.threads[t])
  }

  ghost predicate PcShape(s: State, p: Pc) {
    match p
    case Acquire(op, c, n) => n < |op.order| && c < |s.containers| && op.order[n] < |s.containers[c]|
    case GiveUp(op, c) => op.order != [] && c < |s.containers| && op.order[0] < |s.containers[c]|
    case Unlocking(op, c, left) => c < |s.containers| && forall l :: l in left ==> l < |s.containers[c]|
    case AllAcquire(_, c, l) => c < |s.containers| && l <= |s.containers[c]|
    case AllRelease(c, l, _) => c < |s.containers| && l <= |s.containers[c]|
    case _ => true
  }

  predicate ValidWant(hp: nat, buckets: seq<nat>) {
    1 <= |buckets| <= 3 && forall k :: 0 <= k < |buckets| ==> buckets[k] < Pow2(hp)
  }

  function Go(s: State, t: nat, p: Pc): State
    requires t < |s.threads|
  {
    s.(threads := s.threads[t := p])
  }

  function SetLock(s: State, c: nat, l: nat, v: Option<nat>): State
    requires c < |s.containers| && l < |s.containers[c]|
  {
    s.(containers := s.containers[c := s.containers[c][l := v]])
  }

  function AfterStripe(op: Op, c: nat, n: nat): Pc {
    if n == 0 then Check(op, c) else if n + 1 < |op.order| then Acquire(op, c, n + 1) else Holding(op, c)
  }

  /** Steps of the threads that lock single buckets. */
  ghost function BucketNext(s: State, t: nat, a: Action): State
    requires Shape(s) && t < |s.threads|
  {
    match s.threads[t]
    case Idle => Go(s, t, Known(s.hashpower))
    case Known(hp) =>
      (match a
       case Want(buckets) => if ValidWant(hp, buckets) then Go(s, t, GetLocks(Op(hp, buckets, LockOrder(buckets))))
         else s
       case LockAll => Go(s, t, AllStart)
       case Advance => Go(s, t, Idle)
       case Unlock => s
       case Release(_) => s
       case Grow(_, _) => s)
    case GetLocks(op) =>
      Go(s, t, Acquire(op, Back(s), 0))
    case Acquire(op, c, n) =>
      if s.containers[c][op.order[n]].Some? then s
      else Go(SetLock(s, c, op.order[n], Some(t)), t, AfterStripe(op, c, n))
    case Check(op, c) =>
      if s.hashpower != op.hp then Go(s, t, GiveUp(op, c))
      else Go(s, t, if |op.order| > 1 then Acquire(op, c, 1) else Holding(op, c))
    case GiveUp(op, c) => Go(SetLock(s, c, op.order[0], None), t, Idle)
    case Holding(op, c) => if a.Unlock? then Go(s, t, Unlocking(op, c, set l | l in op.order)) else s
    case Unlocking(op, c, left) =>
      if left == {} then Go(s, t, Known(op.hp))
      else if a.Release? && a.l in left then Go(SetLock(s, c, a.l, None), t, Unlocking(op, c, left - {a.l}))
      else s
    case _ => s
  }

  /** maybe_resize_locks: a larger container, all its locks held by t. */
  function ResizeLocks(s: State, t: nat, buckets: nat): State
    requires s.containers != []
  {
    var n := |s.containers[Back(s)]|;
    if n < MAX_NUM_LOCKS && n < buckets then
      s.(containers := s.containers + [AllOf(Min(MAX_NUM_LOCKS, buckets), Some(t))], born := s.born + [s.hashpower])
    else s
  }

  /** Steps of the threads that lock the whole table. */
  ghost function TableNext(s: State, t: nat, a: Action): State
    requires Shape(s) && t < |s.threads|
  {
    match s.threads[t]
    case AllStart => Go(s, t, AllAcquire(Back(s), Back(s), 0))
    case AllAcquire(first, c, l) =>
      if l < |s.containers[c]| then
        if s.containers[c][l].Some? then s
        else Go(SetLock(s, c, l, Some(t)), t, AllAcquire(first, c, l + 1))
      else Go(s, t, if c + 1 < |s.containers| then AllAcquire(first, c + 1, 0) else AllHeld(first))
    case AllHeld(first) =>
      if a.Grow? && a.orig_hp == s.hashpower && a.new_hp > a.orig_hp
      then Go(ResizeLocks(s, t, Pow2(a.new_hp)), t, SetHp(first, a.new_hp))
      else Go(s, t, AllRelease(first, 0, Back(s)))
    case SetHp(first, hp) => Go(s, t, AllRelease(first, 0, Back(s))).(hashpower := hp)
    case AllRelease(c, l, last) =>
      if l < |s.containers[c]| then Go(SetLock(s, c, l, None), t, AllRelease(c, l + 1, last))
      else Go(s, t, if c + 1 < |s.containers| then AllRelease(c + 1, 0, last) else Idle)
    case _ => s
  }

  predicate WholeTable(p: Pc) { p.AllStart? || p.AllAcquire? || p.AllHeld? || p.SetHp? || p.AllRelease? }

  ghost function Next(s: State, t: nat, a: Action): State
    requires Shape(s) && t < |s.threads|
  {
    if WholeTable(s.threads[t]) then TableNext(s, t, a) else BucketNext(s, t, a)
  }

  // -------------------------------------------------------------- invariant

  /** The locks a thread should hold, by its place in the code. */
  predicate Held(p: Pc, c: nat, l: nat) {
    match p
    case Acquire(op, c0, n) => c == c0 && n <= |op.order| && l in op.order[..n]
    case Check(op, c0) => c == c0 && op.order != [] && l == op.order[0]
    case GiveUp(op, c0) => c == c0 && op.order != [] && l == op.order[0]
    case Holding(op, c0) => c == c0 && l in op.order
    case Unlocking(op, c0, left) => c == c0 && l in left
    case AllAcquire(first, c0, l0) => first <= c < c0 || (c == c0 && l < l0)
    case AllHeld(first) => first <= c
    case SetHp(first, _) => first <= c
    case AllRelease(c0, l0, last) => (c0 < c || (c == c0 && l0 <= l)) && c <= last
    case _ => false
  }

  predicate InRange(s: State, c: nat, l: nat) { c < |s.containers| && l < |s.containers[c]| }

  /** Every lock is held by exactly the thread that should hold it. */
  ghost predicate OwnOk(s: State) {
    && (forall c: nat, l: nat :: InRange(s, c, l) && s.containers[c][l].Some? ==>
      s.containers[c][l].value < |s.threads|)
    && (forall t: nat, c: nat, l: nat :: t < |s.threads| && InRange(s, c, l) ==>
         (s.containers[c][l] == Some(t) <==> Held(s.threads[t], c, l)))
  }

  predicate OpOk(op: Op) { ValidWant(op.hp, op.buckets) && op.order == LockOrder(op.buckets) }

  /** Container c is large enough for hashpower hp. */
  predicate Fits(s: State, c: nat, hp: nat) { c < |s.containers| && |s.containers[c]| >= Min(MAX_NUM_LOCKS, Pow2(hp)) }

  /** c was current at or after the time the hashpower was read as hp. */
  ghost predicate Fresh(s: State, c: nat, hp: nat)
    requires |s.born| == |s.containers|
  {
    Fits(s, c, hp) && hp <= s.hashpower && (c + 1 < |s.containers| ==> hp <= s.born[c + 1])
  }

  predicate Current(s: State, c: nat, hp: nat) { Fits(s, c, hp) && c == Back(s) && hp == s.hashpower }

  ghost predicate PcOk(s: State, t: nat)
    requires Shape(s) && t < |s.threads|
  {
    match s.threads[t]
    case Known(hp) => hp <= s.hashpower
    case GetLocks(op) => OpOk(op) && op.hp <= s.hashpower
    case Acquire(op, c, n) => OpOk(op) && if n == 0 then Fresh(s, c, op.hp) else Current(s, c, op.hp)
    case Check(op, c) => OpOk(op) && Fresh(s, c, op.hp)
    case GiveUp(op, c) => OpOk(op) && Fits(s, c, op.hp) && op.hp < s.hashpower
    case Holding(op, c) => OpOk(op) && Current(s, c, op.hp)
    case Unlocking(op, c, left) =>
      OpOk(op) && op.hp <= s.hashpower && Fits(s, c, op.hp) && (forall l :: l in left ==> l in op.order)
        && (left != {} ==> Current(s, c, op.hp))
    case AllAcquire(first, c, l) => first <= c
    case AllHeld(first) => first < |s.containers|
    case SetHp(first, hp) => first < |s.containers| && hp > s.hashpower && Fits(s, Back(s), hp)
    case AllRelease(c, l, last) => last < |s.containers|
    case _ => true
  }

  /** The thread about to publish the hashpower that goes with the last container. */
  predicate Growing(s: State, p: Pc) { p.SetHp? && p.first < Back(s) }

  /** The hashpower has grown since each container was appended, except while
      the thread that appended the last one has yet to publish it. */
  ghost predicate BornOk(s: State)
    requires |s.born| == |s.containers|
  {
    && (forall k :: 0 < k < |s.born| - 1 ==> s.born[k] < s.hashpower)
    && (|s.born| > 1 ==> s.born[|s.born| - 1] <= s.hashpower)
    && (|s.born| > 1 && s.born[|s.born| - 1] == s.hashpower ==>
      exists t :: 0 <= t < |s.threads| && Growing(s, s.threads[t]))
    && (forall c :: 0 <= c < |s.containers| ==> s.containers[c] != [])
  }

  ghost predicate Inv(s: State) {
    && Shape(s) && OwnOk(s) && BornOk(s) && Fits(s, Back(s), s.hashpower)
    && (forall t :: 0 <= t < |s.threads| ==> PcOk(s, t))
  }

  ghost predicate Init(s: State) {
    && s.containers == [AllOf(Min(MAX_NUM_LOCKS, Pow2(s.hashpower)), None)] && s.born == [0]
    && (forall t :: 0 <= t < |s.threads| ==> s.threads[t] == Idle)
  }

  lemma InitInv(s: State)
    requires Init(s)
    ensures Inv(s)
  {
  }

  /** A release that takes a lock away from another thread: the release loop went
      past the containers its thread locked, into one that was appended later. */
  ghost predicate Steals(s: State, t: nat)
    requires Shape(s) && t < |s.threads|
  {
    var p := s.threads[t];
    p.AllRelease? && p.c > p.last && p.l < |s.containers[p.c]| && s.containers[p.c][p.l].Some?
  }

  // ----------------------------------------------------------- preservation

  /** The hashpower, the container list and the containers' sizes stay. */
  ghost predicate SameTable(s: State, s': State) {
    && s'.hashpower == s.hashpower && s'.born == s.born && |s'.containers| == |s.containers|
    && forall c :: 0 <= c < |s.containers| ==> |s'.containers[c]| == |s.containers[c]|
  }

  lemma FrameOther(s: State, s': State, u: nat)
    requires Shape(s) && Shape(s') && SameTable(s, s') && u < |s.threads| == |s'.threads|
    requires s'.threads[u] == s.threads[u] && PcOk(s, u)
    ensures PcOk(s', u)
  {
  }

  lemma Frame(s: State, s': State, t: nat)
    requires Inv(s) && SameTable(s, s') && OwnOk(s') && t < |s.threads| == |s'.threads|
    requires s'.threads == s.threads[t := s'.threads[t]]
    requires PcShape(s', s'.threads[t]) && (Shape(s') ==> PcOk(s', t))
    requires Growing(s, s.threads[t]) ==> Growing(s', s'.threads[t])
    ensures Inv(s')
  {
    forall u | 0 <= u < |s'.threads| ensures PcShape(s', s'.threads[u]) {
      if u != t { assert PcShape(s, s.threads[u]); }
    }
    forall u | 0 <= u < |s'.threads| ensures PcOk(s', u) { if u != t { FrameOther(s, s', u); } }
    if |s.born| > 1 && s.born[|s.born| - 1] == s.hashpower {
      var u :| 0 <= u < |s.threads| && Growing(s, s.threads[u]);
      assert Growing(s', s'.threads[u]);
    }
  }

  lemma OwnQuiet(s: State, s': State, t: nat)
    requires OwnOk(s) && s'.containers == s.containers && t < |s.threads| == |s'.threads|
      && s'.threads == s.threads[t := s'.threads[t]]
    requires forall c: nat, l: nat :: InRange(s, c, l) ==> (Held(s'.threads[t], c, l) <==> Held(s.threads[t], c, l))
    ensures OwnOk(s')
  {
    assert forall c: nat, l: nat :: InRange(s', c, l) ==> InRange(s, c, l);
  }

  /** Lock (c, l) taken or released by t. */
  lemma OwnSet(s: State, s': State, t: nat, c: nat, l: nat, v: Option<nat>)
    requires OwnOk(s) && t < |s.threads| == |s'.threads| && s'.threads == s.threads[t := s'.threads[t]]
    requires InRange(s, c, l) && s'.containers == SetLock(s, c, l, v).containers
    requires (v == Some(t) && s.containers[c][l] == None)
      || (v == None && (s.containers[c][l] == Some(t) || s.containers[c][l] == None))
    requires forall c': nat, l': nat :: InRange(s, c', l') ==>
      (Held(s'.threads[t], c', l') <==> if c' == c && l' == l then v == Some(t) else Held(s.threads[t], c', l'))
    ensures OwnOk(s')
  {
    assert forall c': nat, l': nat :: InRange(s', c', l') ==> InRange(s, c', l');
    assert forall c': nat, l': nat :: InRange(s, c', l') && !(c' == c && l' == l) ==>
      s'.containers[c'][l'] == s.containers[c'][l'];
  }

  lemma OpFacts(s: State, op: Op, c: nat)
    requires OpOk(op) && Fits(s, c, op.hp)
    ensures 1 <= |op.order| <= 3
    ensures forall i, j :: 0 <= i < j < |op.order| ==> op.order[i] < op.order[j]
    ensures forall l :: l in op.order ==> l < |s.containers[c]|
  {
    LockOrderCorrect(op.buckets);
    forall l | l in op.order ensures l < |s.containers[c]| {
      var k :| 0 <= k < |op.buckets| && LockInd(op.buckets[k]) == l;
      StripeInRange(op.buckets[k], op.hp);
    }
  }

  lemma QuietStep(s: State, s': State, t: nat)
    requires Inv(s) && t < |s.threads| == |s'.threads| && s' == Go(s, t, s'.threads[t])
    requires forall c: nat, l: nat :: InRange(s, c, l) ==> (Held(s'.threads[t], c, l) <==> Held(s.threads[t], c, l))
    requires PcShape(s', s'.threads[t]) && (Shape(s') ==> PcOk(s', t)) && !Growing(s, s.threads[t])
    ensures Inv(s')
  {
    OwnQuiet(s, s', t);
    Frame(s, s', t);
  }

  lemma NotShared(s: State, t: nat, u: nat, c: nat, l: nat)
    requires OwnOk(s) && t < |s.threads| && u < |s.threads| && t != u && InRange(s, c, l)
    ensures !(Held(s.threads[t], c, l) && Held(s.threads[u], c, l))
  {
  }

  /** The hashpower check passes only while the container read is still current:
      had a larger one been appended since, its appender would hold the stripe. */
  lemma CheckPasses(s: State, t: nat)
    requires Inv(s) && t < |s.threads| && s.threads[t].Check? && s.threads[t].op.hp == s.hashpower
    ensures Current(s, s.threads[t].c, s.hashpower)
  {
    assert PcOk(s, t);
    var Check(op, c) := s.threads[t];
    OpFacts(s, op, c);
    if c < Back(s) {
      var u :| 0 <= u < |s.threads| && Growing(s, s.threads[u]);
      assert PcOk(s, u);
      NotShared(s, t, u, c, op.order[0]);
    }
  }

  lemma SnapshotStep(s: State, t: nat, a: Action)
    requires Inv(s) && t < |s.threads| && (s.threads[t].Idle? || s.threads[t].Known? || s.threads[t].GetLocks?)
    ensures Inv(BucketNext(s, t, a))
  {
    assert PcOk(s, t);
    if s.threads[t].GetLocks? {
      var op := s.threads[t].op;
      Pow2Mono(op.hp, s.hashpower);
      OpFacts(s, op, Back(s));
      QuietStep(s, Go(s, t, Acquire(op, Back(s), 0)), t);
    } else if s.threads[t].Idle? {
      QuietStep(s, Go(s, t, Known(s.hashpower)), t);
    } else if BucketNext(s, t, a) != s {
      AskStep(s, t, a);
    }
  }

  lemma AskStep(s: State, t: nat, a: Action)
    requires Inv(s) && t < |s.threads| && s.threads[t].Known? && BucketNext(s, t, a) != s
    ensures Inv(BucketNext(s, t, a))
  {
    assert PcOk(s, t);
    QuietStep(s, BucketNext(s, t, a), t);
  }

  /** What a thread holds grows by the stripe it has just taken. */
  lemma HeldAfterStripe(s: State, op: Op, c: nat, n: nat)
    requires OpOk(op) && Fits(s, c, op.hp) && n < |op.order|
    ensures forall c': nat, l: nat :: Held(AfterStripe(op, c, n), c', l) <==>
      Held(Acquire(op, c, n), c', l) || (c' == c && l == op.order[n])
    ensures n == 0 || op.order[n] !in op.order[..n]
  {
    OpFacts(s, op, c);
    assert op.order[..n + 1] == op.order[..n] + [op.order[n]];
    assert n + 1 == |op.order| ==> op.order[..n + 1] == op.order;
  }

  lemma AcquireStep(s: State, t: nat, a: Action)
    requires Inv(s) && t < |s.threads| && s.threads[t].Acquire? && BucketNext(s, t, a) != s
    ensures Inv(BucketNext(s, t, a))
  {
    assert PcOk(s, t) && PcShape(s, s.threads[t]);
    var Acquire(op, c, n) := s.threads[t];
    var s' := Go(SetLock(s, c, op.order[n], Some(t)), t, AfterStripe(op, c, n));
    OpFacts(s, op, c);
    TakenStripe(s, s', t);
    TakenPlace(s, s', t);
    Frame(s, s', t);
  }

  lemma TakenPlace(s: State, s': State, t: nat)
    requires Shape(s) && t < |s.threads| && s.threads[t].Acquire? && PcOk(s, t) && PcShape(s, s.threads[t])
    requires var Acquire(op, c, n) := s.threads[t];
      s' == Go(SetLock(s, c, op.order[n], Some(t)), t, AfterStripe(op, c, n))
    ensures SameTable(s, s') && PcShape(s', s'.threads[t]) && (Shape(s') ==> PcOk(s', t))
  {
    OpFacts(s, s.threads[t].op, s.threads[t].c);
  }

  lemma TakenStripe(s: State, s': State, t: nat)
    requires Shape(s) && OwnOk(s) && t < |s.threads| && s.threads[t].Acquire? && PcOk(s, t) && PcShape(s, s.threads[t])
    requires var Acquire(op, c, n) := s.threads[t];
      s.containers[c][op.order[n]] == None && s' == Go(SetLock(s, c, op.order[n], Some(t)), t, AfterStripe(op, c, n))
    ensures OwnOk(s')
  {
    var Acquire(op, c, n) := s.threads[t];
    HeldAfterStripe(s, op, c, n);
    OwnSet(s, s', t, c, op.order[n], Some(t));
  }

  lemma CheckStep(s: State, t: nat, a: Action)
    requires Inv(s) && t < |s.threads| && s.threads[t].Check?
    ensures Inv(BucketNext(s, t, a))
  {
    assert PcOk(s, t);
    var Check(op, c) := s.threads[t];
    OpFacts(s, op, c);
    assert op.order[..1] == [op.order[0]];
    if s.hashpower == op.hp { CheckPassed(s, t); } else { QuietStep(s, Go(s, t, GiveUp(op, c)), t); }
  }

  lemma CheckPassed(s: State, t: nat)
    requires Inv(s) && t < |s.threads| && s.threads[t].Check? && s.threads[t].op.hp == s.hashpower
    ensures var Check(op, c) := s.threads[t];
      Inv(Go(s, t, if |op.order| > 1 then Acquire(op, c, 1) else Holding(op, c)))
  {
    assert PcOk(s, t);
    var Check(op, c) := s.threads[t];
    OpFacts(s, op, c);
    CheckPasses(s, t);
    assert op.order[..1] == [op.order[0]];
    QuietStep(s, Go(s, t, if |op.order| > 1 then Acquire(op, c, 1) else Holding(op, c)), t);
  }

  lemma ReleaseStep(s: State, t: nat, a: Action)
    requires Inv(s) && t < |s.threads| && (s.threads[t].GiveUp? || s.threads[t].Holding? || s.threads[t].Unlocking?)
    ensures Inv(BucketNext(s, t, a))
  {
    assert PcOk(s, t);
    match s.threads[t] {
      case GiveUp(op, c) => GiveUpStep(s, t, a);
      case Holding(op, c) =>
        OpFacts(s, op, c);
        if a.Unlock? { QuietStep(s, BucketNext(s, t, a), t); }
      case Unlocking(op, c, left) => UnlockStep(s, t, a);
    }
  }

  lemma GiveUpStep(s: State, t: nat, a: Action)
    requires Inv(s) && t < |s.threads| && s.threads[t].GiveUp?
    ensures Inv(BucketNext(s, t, a))
  {
    assert PcOk(s, t);
    var GiveUp(op, c) := s.threads[t];
    OpFacts(s, op, c);
    assert InRange(s, c, op.order[0]) && Held(s.threads[t], c, op.order[0]);
    OwnSet(s, BucketNext(s, t, a), t, c, op.order[0], None);
    Frame(s, BucketNext(s, t, a), t);
  }

  lemma UnlockStep(s: State, t: nat, a: Action)
    requires Inv(s) && t < |s.threads| && s.threads[t].Unlocking?
    ensures Inv(BucketNext(s, t, a))
  {
    assert PcOk(s, t);
    var Unlocking(op, c, left) := s.threads[t];
    OpFacts(s, op, c);
    if left == {} {
      QuietStep(s, BucketNext(s, t, a), t);
    } else if a.Release? && a.l in left {
      assert InRange(s, c, a.l) && Held(s.threads[t], c, a.l);
      OwnSet(s, BucketNext(s, t, a), t, c, a.l, None);
      Frame(s, BucketNext(s, t, a), t);
    }
  }

  lemma BucketStep(s: State, t: nat, a: Action)
    requires Inv(s) && t < |s.threads| && !WholeTable(s.threads[t])
    ensures Inv(BucketNext(s, t, a))
  {
    match s.threads[t]
    case Idle => SnapshotStep(s, t, a);
    case Known(_) => SnapshotStep(s, t, a);
    case GetLocks(_) => SnapshotStep(s, t, a);
    case Acquire(_, _, _) => if BucketNext(s, t, a) != s { AcquireStep(s, t, a); }
    case Check(_, _) => CheckStep(s, t, a);
    case GiveUp(_, _) => ReleaseStep(s, t, a);
    case Holding(_, _) => ReleaseStep(s, t, a);
    case Unlocking(_, _, _) => ReleaseStep(s, t, a);
  }

  /** A thread that has the whole table shares it with nobody. */
  lemma Alone(s: State, t: nat, u: nat)
    requires Inv(s) && t < |s.threads| && u < |s.threads| && t != u && (s.threads[t].AllHeld? || s.threads[t].SetHp?)
    ensures !s.threads[u].AllHeld? && !s.threads[u].SetHp? && !s.threads[u].Holding?
    ensures s.threads[u].Acquire? ==> s.threads[u].n == 0
    ensures s.threads[u].Unlocking? ==> s.threads[u].left == {}
  {
    assert PcOk(s, t) && PcOk(s, u);
    assert s.containers[Back(s)] != [];
    NotShared(s, t, u, Back(s), 0);
    AloneInStripes(s, t, u);
  }

  lemma AloneInStripes(s: State, t: nat, u: nat)
    requires Inv(s) && t < |s.threads| && u < |s.threads| && t != u && (s.threads[t].AllHeld? || s.threads[t].SetHp?)
    ensures !s.threads[u].Holding?
    ensures s.threads[u].Acquire? ==> s.threads[u].n == 0
    ensures s.threads[u].Unlocking? ==> s.threads[u].left == {}
  {
    assert PcOk(s, t) && PcOk(s, u);
    match s.threads[u] {
      case Acquire(op, c, n) =>
        OpFacts(s, op, c);
        if n > 0 {
          assert op.order[..n][0] == op.order[0];
          NotShared(s, t, u, c, op.order[0]);
        }
      case Holding(op, c) =>
        OpFacts(s, op, c);
        NotShared(s, t, u, c, op.order[0]);
      case Unlocking(op, c, left) =>
        OpFacts(s, op, c);
        if left != {} {
          var l :| l in left;
          NotShared(s, t, u, c, l);
        }
      case _ =>
    }
  }

  lemma GrowOwn(s: State, s': State, t: nat, first: nat, hp: nat)
    requires Inv(s) && t < |s.threads| && s.threads[t] == AllHeld(first)
    requires s' == Go(ResizeLocks(s, t, Pow2(hp)), t, SetHp(first, hp))
    ensures OwnOk(s')
  {
    assert PcOk(s, t);
    forall u: nat, c: nat, l: nat | u < |s'.threads| && InRange(s', c, l)
      ensures s'.containers[c][l] == Some(u) <==> Held(s'.threads[u], c, l)
    {
      if u != t { Alone(s, t, u); assert PcOk(s, u); assert PcShape(s, s.threads[u]); }
      if c < |s.containers| {
        assert InRange(s, c, l);
        assert Held(s'.threads[u], c, l) <==> Held(s.threads[u], c, l);
      } else {
        assert s'.containers[c][l] == Some(t);
      }
    }
    forall c: nat, l: nat | InRange(s', c, l) && s'.containers[c][l].Some?
      ensures s'.containers[c][l].value < |s'.threads| {
      if c < |s.containers| { assert InRange(s, c, l); }
    }
  }

  lemma GrowThread(s: State, s': State, t: nat, u: nat, first: nat, hp: nat)
    requires Inv(s) && t < |s.threads| && s.threads[t] == AllHeld(first) && hp > s.hashpower && u < |s.threads|
    requires s' == Go(ResizeLocks(s, t, Pow2(hp)), t, SetHp(first, hp)) && Shape(s')
    ensures PcOk(s', u)
  {
    assert PcOk(s, t);
    Pow2Mono(s.hashpower, hp);
    if u != t {
      Alone(s, t, u);
      assert PcOk(s, u);
      GrowOther(s, s', t, u, first, hp);
    }
  }

  lemma GrowOther(s: State, s': State, t: nat, u: nat, first: nat, hp: nat)
    requires Shape(s) && t < |s.threads| && u < |s.threads| && u != t && PcOk(s, u)
    requires s' == Go(ResizeLocks(s, t, Pow2(hp)), t, SetHp(first, hp)) && Shape(s')
    requires !s.threads[u].AllHeld? && !s.threads[u].SetHp? && !s.threads[u].Holding?
    requires s.threads[u].Acquire? ==> s.threads[u].n == 0
    requires s.threads[u].Unlocking? ==> s.threads[u].left == {}
    ensures PcOk(s', u)
  {
  }

  lemma GrowShape(s: State, s': State, t: nat, first: nat, hp: nat)
    requires Shape(s) && t < |s.threads| && s' == Go(ResizeLocks(s, t, Pow2(hp)), t, SetHp(first, hp))
    ensures Shape(s')
  {
    forall u | 0 <= u < |s'.threads| ensures PcShape(s', s'.threads[u]) {
      if u != t { assert PcShape(s, s.threads[u]); }
    }
  }

  lemma GrowBorn(s: State, s': State, t: nat, first: nat, hp: nat)
    requires Inv(s) && t < |s.threads| && s.threads[t] == AllHeld(first) && hp > s.hashpower
    requires s' == Go(ResizeLocks(s, t, Pow2(hp)), t, SetHp(first, hp))
    ensures BornOk(s') && Fits(s', Back(s'), s'.hashpower)
  {
    assert PcOk(s, t);
    Pow2Mono(s.hashpower, hp);
    if |s.born| > 1 && s.born[|s.born| - 1] == s.hashpower {
      var u :| 0 <= u < |s.threads| && Growing(s, s.threads[u]);
      Alone(s, t, u);
    }
    assert s'.containers == s.containers || Growing(s', s'.threads[t]);
  }

  lemma GrowStep(s: State, t: nat, first: nat, hp: nat)
    requires Inv(s) && t < |s.threads| && s.threads[t] == AllHeld(first) && hp > s.hashpower
    ensures Inv(Go(ResizeLocks(s, t, Pow2(hp)), t, SetHp(first, hp)))
  {
    var s' := Go(ResizeLocks(s, t, Pow2(hp)), t, SetHp(first, hp));
    GrowShape(s, s', t, first, hp);
    GrowOwn(s, s', t, first, hp);
    GrowBorn(s, s', t, first, hp);
    forall u | 0 <= u < |s'.threads| ensures PcOk(s', u) { GrowThread(s, s', t, u, first, hp); }
  }

  lemma SetHpStep(s: State, t: nat, a: Action)
    requires Inv(s) && t < |s.threads| && s.threads[t].SetHp?
    ensures Inv(TableNext(s, t, a))
  {
    var s' := TableNext(s, t, a);
    assert PcOk(s, t);
    OwnQuiet(s, s', t);
    forall u | 0 <= u < |s'.threads| ensures PcShape(s', s'.threads[u]) {
      if u != t { assert PcShape(s, s.threads[u]); }
    }
    forall u | 0 <= u < |s'.threads| ensures PcOk(s', u) { if u != t { Alone(s, t, u); assert PcOk(s, u); } }
  }

  lemma LockAllStep(s: State, t: nat, a: Action)
    requires Inv(s) && t < |s.threads| && (s.threads[t].AllStart? || s.threads[t].AllAcquire?)
    ensures Inv(TableNext(s, t, a))
  {
    var s' := TableNext(s, t, a);
    assert PcOk(s, t) && PcShape(s, s.threads[t]);
    if s.threads[t].AllAcquire? && s.threads[t].l < |s.containers[s.threads[t].c]| {
      if s' != s {
        OwnSet(s, s', t, s.threads[t].c, s.threads[t].l, Some(t));
        Frame(s, s', t);
      }
    } else {
      QuietStep(s, s', t);
    }
  }

  lemma UnlockAllStep(s: State, t: nat, a: Action)
    requires Inv(s) && t < |s.threads| && s.threads[t].AllRelease? && !Steals(s, t)
    ensures Inv(TableNext(s, t, a))
  {
    var s' := TableNext(s, t, a);
    assert PcOk(s, t) && PcShape(s, s.threads[t]);
    var AllRelease(c, l, last) := s.threads[t];
    if l < |s.containers[c]| {
      assert InRange(s, c, l);
      OwnSet(s, s', t, c, l, None);
      Frame(s, s', t);
    } else {
      QuietStep(s, s', t);
    }
  }

  lemma TableStep(s: State, t: nat, a: Action)
    requires Inv(s) && t < |s.threads| && WholeTable(s.threads[t]) && !Steals(s, t)
    ensures Inv(TableNext(s, t, a))
  {
    match s.threads[t]
    case AllStart => LockAllStep(s, t, a);
    case AllAcquire(_, _, _) => LockAllStep(s, t, a);
    case AllHeld(first) =>
      assert PcOk(s, t);
      if a.Grow? && a.orig_hp == s.hashpower && a.new_hp > a.orig_hp { GrowStep(s, t, first, a.new_hp); }
      else { QuietStep(s, TableNext(s, t, a), t); }
    case SetHp(_, _) => SetHpStep(s, t, a);
    case AllRelease(_, _, _) => UnlockAllStep(s, t, a);
  }

  /** Exactly the steps that do not steal keep every lock with its holder. */
  lemma StepExact(s: State, t: nat, a: Action)
    requires Inv(s) && t < |s.threads|
    ensures Inv(Next(s, t, a)) <==> !Steals(s, t)
  {
    if Steals(s, t) {
      var AllRelease(c, l, last) := s.threads[t];
      assert InRange(s, c, l);
      var u := s.containers[c][l].value;
      assert Held(s.threads[u], c, l) && u != t;
      var s' := Next(s, t, a);
      assert InRange(s', c, l) && s'.threads[u] == s.threads[u];
    } else if WholeTable(s.threads[t]) {
      TableStep(s, t, a);
    } else {
      BucketStep(s, t, a);
    }
  }

  // ------------------------------------------------------------- whole runs

  datatype Event = Event(t: nat, a: Action)

  ghost predicate Reaches(s: State, es: seq<Event>, s': State)
    decreases |es|
  {
    && Shape(s)
    && if es == [] then s' == s
       else es[0].t < |s.threads| && Reaches(Next(s, es[0].t, es[0].a), es[1..], s')
  }

  /** No step of the run steals a lock. */
  ghost predicate Clean(s: State, es: seq<Event>)
    decreases |es|
  {
    es != [] && Shape(s) && es[0].t < |s.threads| ==>
      !Steals(s, es[0].t) && Clean(Next(s, es[0].t, es[0].a), es[1..])
  }

  lemma {:induction false} CleanRunsKeepInv(s: State, es: seq<Event>, s': State)
    requires Inv(s) && Reaches(s, es, s') && Clean(s, es)
    ensures Inv(s')
    decreases |es|
  {
    if es != [] {
      StepExact(s, es[0].t, es[0].a);
      CleanRunsKeepInv(Next(s, es[0].t, es[0].a), es[1..], s');
    }
  }

  /** One thread only, or one lock container for good: a table that starts with
      the maximum number of locks never appends another. */
  predicate NothingToOverrun(s: State) {
    |s.threads| <= 1 || (|s.containers| == 1 && |s.containers[0]| >= MAX_NUM_LOCKS)
  }

  lemma NothingToSteal(s: State, t: nat)
    requires Inv(s) && NothingToOverrun(s) && t < |s.threads|
    ensures !Steals(s, t)
  {
    if Steals(s, t) {
      assert PcOk(s, t);
      var AllRelease(c, l, last) := s.threads[t];
      assert InRange(s, c, l);
    }
  }

  lemma StaysWithoutOverrun(s: State, t: nat, a: Action)
    requires Shape(s) && NothingToOverrun(s) && t < |s.threads|
    ensures NothingToOverrun(Next(s, t, a))
  {
    if WholeTable(s.threads[t]) { TableSizes(s, t, a); } else { BucketSizes(s, t, a); }
  }

  lemma TableSizes(s: State, t: nat, a: Action)
    requires Shape(s) && NothingToOverrun(s) && t < |s.threads| && WholeTable(s.threads[t])
    ensures NothingToOverrun(TableNext(s, t, a))
  {
  }

  lemma BucketSizes(s: State, t: nat, a: Action)
    requires Shape(s) && t < |s.threads|
    ensures var s' := BucketNext(s, t, a);
      && |s'.threads| == |s.threads| && |s'.containers| == |s.containers|
      && forall c :: 0 <= c < |s.containers| ==> |s'.containers[c]| == |s.containers[c]|
  {
  }

  lemma {:induction false} CleanWithoutOverrun(s: State, es: seq<Event>, s': State)
    requires Inv(s) && NothingToOverrun(s) && Reaches(s, es, s')
    ensures Clean(s, es)
    decreases |es|
  {
    if es != [] {
      NothingToSteal(s, es[0].t);
      StepExact(s, es[0].t, es[0].a);
      StaysWithoutOverrun(s, es[0].t, es[0].a);
      CleanWithoutOverrun(Next(s, es[0].t, es[0].a), es[1..], s');
    }
  }

  /** Thread t has locked its k-th bucket for certain: the container is the current
      one, the hashpower is the one the bucket was computed with, and the thread
      holds the bucket's stripe. */
  ghost predicate LockedIsCurrent(s: State, t: nat, k: nat)
    requires t < |s.threads| && s.threads[t].Holding? && k < |s.threads[t].op.buckets|
  {
    var Holding(op, c) := s.threads[t];
    && s.containers != [] && c == Back(s) && op.hp == s.hashpower && op.buckets[k] < Pow2(s.hashpower)
    && LockInd(op.buckets[k]) < |s.containers[c]| && s.containers[c][LockInd(op.buckets[k])] == Some(t)
  }

  /** After lock_one, lock_two or lock_three returns, and until the thread lets go. */
  lemma LockedBucketsAreCurrent(s0: State, es: seq<Event>, s: State, t: nat, k: nat)
    requires Init(s0) && Reaches(s0, es, s) && (NothingToOverrun(s0) || Clean(s0, es))
    requires t < |s.threads| && s.threads[t].Holding? && k < |s.threads[t].op.buckets|
    ensures LockedIsCurrent(s, t, k)
  {
    InitInv(s0);
    if NothingToOverrun(s0) { CleanWithoutOverrun(s0, es, s); }
    CleanRunsKeepInv(s0, es, s);
    assert PcOk(s, t);
    var Holding(op, c) := s.threads[t];
    OpFacts(s, op, c);
    LockOrderCorrect(op.buckets);
    assert LockInd(op.buckets[k]) in op.order;
    assert InRange(s, c, LockInd(op.buckets[k])) && Held(s.threads[t], c, LockInd(op.buckets[k]));
  }

  /** While a thread holds buckets, a step of any other thread leaves the
      hashpower, the current container and the holder where they are. */
  lemma NothingChangesWhileHeld(s: State, t: nat, u: nat, a: Action)
    requires Inv(s) && t < |s.threads| && u < |s.threads| && t != u && s.threads[t].Holding? && !Steals(s, u)
    ensures var s' := Next(s, u, a);
      s'.hashpower == s.hashpower && |s'.containers| == |s.containers| && |s'.threads| == |s.threads|
        && s'.threads[t] == s.threads[t] && Inv(s')
  {
    StepExact(s, u, a);
    if s.threads[u].AllHeld? || s.threads[u].SetHp? { Alone(s, u, t); }
    else if WholeTable(s.threads[u]) { TableLeaves(s, t, u, a); }
    else { BucketLeaves(s, t, u, a); }
  }

  lemma TableLeaves(s: State, t: nat, u: nat, a: Action)
    requires Shape(s) && t < |s.threads| && u < |s.threads| && t != u
    requires WholeTable(s.threads[u]) && !s.threads[u].AllHeld? && !s.threads[u].SetHp?
    ensures var s' := TableNext(s, u, a);
      s'.hashpower == s.hashpower && |s'.containers| == |s.containers| && |s'.threads| == |s.threads|
        && s'.threads[t] == s.threads[t]
  {
  }

  lemma BucketLeaves(s: State, t: nat, u: nat, a: Action)
    requires Shape(s) && t < |s.threads| && u < |s.threads| && t != u
    ensures var s' := BucketNext(s, u, a);
      s'.hashpower == s.hashpower && |s'.containers| == |s.containers| && |s'.threads| == |s.threads|
        && s'.threads[t] == s.threads[t]
  {
  }

  /** No bucket is held by two threads, and none while a thread has the table. */
  lemma NoBucketHeldTwice(s: State, t: nat, u: nat, j: nat, k: nat)
    requires Inv(s) && t < |s.threads| && u < |s.threads| && t != u && s.threads[t].Holding?
      && j < |s.threads[t].op.buckets|
    ensures s.threads[u].Holding? && k < |s.threads[u].op.buckets| ==>
      s.threads[u].op.buckets[k] != s.threads[t].op.buckets[j]
    ensures !s.threads[u].AllHeld? && !s.threads[u].SetHp?
  {
    if s.threads[u].AllHeld? || s.threads[u].SetHp? { Alone(s, u, t); }
    assert PcOk(s, t) && PcOk(s, u);
    if s.threads[u].Holding? && k < |s.threads[u].op.buckets| {
      HoldsStripe(s, t, j);
      HoldsStripe(s, u, k);
      NotShared(s, t, u, Back(s), LockInd(s.threads[t].op.buckets[j]));
    }
  }

  /** A thread that holds a bucket holds its stripe of the current container. */
  lemma HoldsStripe(s: State, t: nat, j: nat)
    requires Shape(s) && t < |s.threads| && PcOk(s, t) && s.threads[t].Holding? && j < |s.threads[t].op.buckets|
    ensures var l := LockInd(s.threads[t].op.buckets[j]); InRange(s, Back(s), l) && Held(s.threads[t], Back(s), l)
  {
    OpFacts(s, s.threads[t].op, s.threads[t].c);
    LockOrderCorrect(s.threads[t].op.buckets);
  }

  // --------------------------------------------------------------- progress

  /** In the middle of a locking or unlocking operation, or holding locks. */
  predicate Busy(p: Pc) { !p.Idle? && !p.Known? }

  /** Thread t waits for a lock that is taken. */
  predicate Blocked(s: State, t: nat)
    requires t < |s.threads|
  {
    match s.threads[t]
    case Acquire(op, c, n) => n < |op.order| && InRange(s, c, op.order[n]) && s.containers[c][op.order[n]].Some?
    case AllAcquire(_, c, l) => InRange(s, c, l) && s.containers[c][l].Some?
    case _ => false
  }

  /** The lock a blocked thread waits for. */
  function Wanted(s: State, t: nat): (nat, nat)
    requires t < |s.threads| && Blocked(s, t)
  {
    if s.threads[t].Acquire? then (s.threads[t].c, s.threads[t].op.order[s.threads[t].n])
    else (s.threads[t].c, s.threads[t].l)
  }

  /** Every lock that is taken is one that its holder counts as its own.  A release
      loop that runs on breaks the converse only. */
  ghost predicate MarksOk(s: State) {
    forall c: nat, l: nat :: InRange(s, c, l) && s.containers[c][l].Some? ==>
      s.containers[c][l].value < |s.threads| && Held(s.threads[s.containers[c][l].value], c, l)
  }

  /** Container c and the last one are large enough for the request. */
  ghost predicate OpFits(s: State, op: Op, c: nat)
    requires s.containers != []
  {
    OpOk(op) && Fits(s, c, op.hp) && Fits(s, Back(s), op.hp)
  }

  /** The container that a thread uses, or will, is large enough for its hashpower. */
  ghost predicate PlaceOk(s: State, p: Pc)
    requires s.containers != []
  {
    match p
    case Known(hp) => Fits(s, Back(s), hp)
    case GetLocks(op) => OpFits(s, op, Back(s))
    case Acquire(op, c, n) => OpFits(s, op, c)
    case Check(op, c) => OpFits(s, op, c)
    case GiveUp(op, c) => OpFits(s, op, c)
    case Holding(op, c) => OpFits(s, op, c)
    case Unlocking(op, c, left) => OpFits(s, op, c)
    case AllAcquire(first, c, l) => first <= c
    case AllHeld(first) => first < |s.containers|
    case SetHp(first, hp) => first < |s.containers| && Fits(s, Back(s), hp)
    case _ => true
  }

  /** What no step breaks, not even one that steals a lock. */
  ghost predicate WeakInv(s: State) {
    && Shape(s) && MarksOk(s) && Fits(s, Back(s), s.hashpower)
    && (forall t :: 0 <= t < |s.threads| ==> PlaceOk(s, s.threads[t]))
  }

  lemma InitWeakInv(s: State)
    requires Init(s)
    ensures WeakInv(s)
  {
  }

  /** Containers are only added, each larger than the one before. */
  ghost predicate Larger(s: State, s': State) {
    && s.containers != [] && |s.containers| <= |s'.containers| == |s'.born|
    && (forall c :: 0 <= c < |s.containers| ==> |s'.containers[c]| == |s.containers[c]|)
    && |s'.containers[Back(s')]| >= |s.containers[Back(s)]|
  }

  ghost predicate OnlyMoves(s: State, s': State, t: nat) {
    t < |s.threads| == |s'.threads| && s'.threads == s.threads[t := s'.threads[t]]
  }

  lemma StepLarger(s: State, t: nat, a: Action)
    requires Shape(s) && t < |s.threads|
    ensures Larger(s, Next(s, t, a)) && OnlyMoves(s, Next(s, t, a), t)
  {
    if WholeTable(s.threads[t]) { TableLarger(s, t, a); } else { BucketOwn(s, t, a); }
  }

  lemma TableLarger(s: State, t: nat, a: Action)
    requires Shape(s) && t < |s.threads|
    ensures Larger(s, TableNext(s, t, a)) && OnlyMoves(s, TableNext(s, t, a), t)
  {
    assert PcShape(s, s.threads[t]);
  }

  lemma BucketOwn(s: State, t: nat, a: Action)
    requires Shape(s) && t < |s.threads|
    ensures SameTable(s, BucketNext(s, t, a)) && OnlyMoves(s, BucketNext(s, t, a), t)
  {
  }

  ghost predicate PlacedOk(s: State, t: nat) {
    && t < |s.threads| && s.containers != [] && PcShape(s, s.threads[t]) && PlaceOk(s, s.threads[t])
    && Fits(s, Back(s), s.hashpower)
  }

  /** The step of a thread leaves it in a place that is all right. */
  lemma StepPlace(s: State, t: nat, a: Action)
    requires WeakInv(s) && t < |s.threads|
    ensures PlacedOk(Next(s, t, a), t)
  {
    if WholeTable(s.threads[t]) { TablePlace(s, t, a); } else { BucketPlace(s, t, a); }
  }

  lemma TablePlace(s: State, t: nat, a: Action)
    requires WeakInv(s) && t < |s.threads| && WholeTable(s.threads[t])
    ensures PlacedOk(TableNext(s, t, a), t)
  {
    assert PcShape(s, s.threads[t]) && PlaceOk(s, s.threads[t]);
    if s.threads[t].AllHeld? { HeldPlace(s, t, a); }
  }

  lemma HeldPlace(s: State, t: nat, a: Action)
    requires WeakInv(s) && t < |s.threads| && s.threads[t].AllHeld?
    ensures PlacedOk(TableNext(s, t, a), t)
  {
    assert PlaceOk(s, s.threads[t]);
    if a.Grow? && a.new_hp > s.hashpower { Pow2Mono(s.hashpower, a.new_hp); }
  }

  lemma BucketPlace(s: State, t: nat, a: Action)
    requires WeakInv(s) && t < |s.threads| && !WholeTable(s.threads[t])
    ensures PlacedOk(BucketNext(s, t, a), t)
  {
    var p := s.threads[t];
    if p.Acquire? { StripePlace(s, t, a); }
    else if p.Check? { CheckedPlace(s, t, a); }
    else if p.GiveUp? || p.Holding? || p.Unlocking? { LeavingPlace(s, t, a); }
    else { AskingPlace(s, t, a); }
  }

  /** A thread that moves to a place that is all right is in one. */
  lemma GoPlace(s: State, t: nat, p: Pc)
    requires WeakInv(s) && t < |s.threads| && PcShape(s, p) && PlaceOk(s, p)
    ensures PlacedOk(Go(s, t, p), t)
  {
  }

  lemma OthersPlace(s: State, s': State, p: Pc)
    requires Larger(s, s') && PcShape(s, p) && PlaceOk(s, p)
    ensures PcShape(s', p) && PlaceOk(s', p)
  {
  }

  /** ... also when it takes or releases a lock. */
  lemma SetGoPlace(s: State, t: nat, p: Pc, c: nat, l: nat, v: Option<nat>)
    requires WeakInv(s) && t < |s.threads| && PcShape(s, p) && PlaceOk(s, p) && InRange(s, c, l)
    ensures PlacedOk(Go(SetLock(s, c, l, v), t, p), t)
  {
    OthersPlace(s, SetLock(s, c, l, v), p);
  }

  lemma AskingPlace(s: State, t: nat, a: Action)
    requires WeakInv(s) && t < |s.threads|
      && (s.threads[t].Idle? || s.threads[t].Known? || s.threads[t].GetLocks?)
    ensures PlacedOk(BucketNext(s, t, a), t)
  {
    assert PlaceOk(s, s.threads[t]);
    if s.threads[t].GetLocks? { OpFacts(s, s.threads[t].op, Back(s)); }
  }

  lemma StripePlace(s: State, t: nat, a: Action)
    requires WeakInv(s) && t < |s.threads| && s.threads[t].Acquire?
    ensures PlacedOk(BucketNext(s, t, a), t)
  {
    var Acquire(op, c, n) := s.threads[t];
    assert PcShape(s, s.threads[t]) && PlaceOk(s, s.threads[t]);
    if s.containers[c][op.order[n]].None? {
      OpFacts(s, op, c);
      SetGoPlace(s, t, AfterStripe(op, c, n), c, op.order[n], Some(t));
    }
  }

  lemma CheckedPlace(s: State, t: nat, a: Action)
    requires WeakInv(s) && t < |s.threads| && s.threads[t].Check?
    ensures PlacedOk(BucketNext(s, t, a), t)
  {
    var Check(op, c) := s.threads[t];
    assert PlaceOk(s, s.threads[t]);
    OpFacts(s, op, c);
    GoPlace(s, t, if s.hashpower != op.hp then GiveUp(op, c) else if |op.order| > 1 then Acquire(op, c, 1)
      else Holding(op, c));
  }

  lemma LeavingPlace(s: State, t: nat, a: Action)
    requires WeakInv(s) && t < |s.threads|
      && (s.threads[t].GiveUp? || s.threads[t].Holding? || s.threads[t].Unlocking?)
    ensures PlacedOk(BucketNext(s, t, a), t)
  {
    var p := s.threads[t];
    assert PcShape(s, p) && PlaceOk(s, p);
    OpFacts(s, p.op, p.c);
  }

  /** The locks that the step leaves taken are still their holders' own. */
  lemma StepMarks(s: State, t: nat, a: Action)
    requires WeakInv(s) && t < |s.threads|
    ensures MarksOk(Next(s, t, a))
  {
    if WholeTable(s.threads[t]) { TableMarks(s, t, a); } else { BucketMarks(s, t, a); }
  }

  lemma TableMarks(s: State, t: nat, a: Action)
    requires WeakInv(s) && t < |s.threads| && WholeTable(s.threads[t])
    ensures MarksOk(TableNext(s, t, a))
  {
    var s' := TableNext(s, t, a);
    TableLarger(s, t, a);
    assert PcShape(s, s.threads[t]) && PlaceOk(s, s.threads[t]);
    forall c: nat, l: nat | InRange(s', c, l) && s'.containers[c][l].Some?
      ensures s'.containers[c][l].value < |s'.threads| && Held(s'.threads[s'.containers[c][l].value], c, l)
    {
      if c < |s.containers| { assert InRange(s, c, l); }
    }
  }

  lemma MarksMoved(s: State, s': State, t: nat)
    requires MarksOk(s) && s'.containers == s.containers && OnlyMoves(s, s', t)
    requires forall c: nat, l: nat :: InRange(s, c, l) && Held(s.threads[t], c, l) ==> Held(s'.threads[t], c, l)
    ensures MarksOk(s')
  {
    forall c: nat, l: nat | InRange(s', c, l) && s'.containers[c][l].Some?
      ensures s'.containers[c][l].value < |s'.threads| && Held(s'.threads[s'.containers[c][l].value], c, l)
    {
      assert InRange(s, c, l);
    }
  }

  lemma MarksSet(s: State, s': State, t: nat, c: nat, l: nat, v: Option<nat>)
    requires MarksOk(s) && InRange(s, c, l) && s'.containers == SetLock(s, c, l, v).containers && OnlyMoves(s, s', t)
    requires forall c': nat, l': nat :: InRange(s, c', l') && Held(s.threads[t], c', l') ==>
      (c' == c && l' == l) || Held(s'.threads[t], c', l')
    requires v == None || (v == Some(t) && Held(s'.threads[t], c, l))
    ensures MarksOk(s')
  {
    forall c': nat, l': nat | InRange(s', c', l') && s'.containers[c'][l'].Some?
      ensures s'.containers[c'][l'].value < |s'.threads| && Held(s'.threads[s'.containers[c'][l'].value], c', l')
    {
      assert InRange(s, c', l');
    }
  }

  lemma BucketMarks(s: State, t: nat, a: Action)
    requires WeakInv(s) && t < |s.threads| && !WholeTable(s.threads[t])
    ensures MarksOk(BucketNext(s, t, a))
  {
    var s', p := BucketNext(s, t, a), s.threads[t];
    assert PcShape(s, p) && PlaceOk(s, p);
    if p.Acquire? {
      if s' != s {
        HeldAfterStripe(s, p.op, p.c, p.n);
        MarksSet(s, s', t, p.c, p.op.order[p.n], Some(t));
      }
    } else if p.GiveUp? {
      MarksSet(s, s', t, p.c, p.op.order[0], None);
    } else if p.Unlocking? && p.left != {} {
      if a.Release? && a.l in p.left { MarksSet(s, s', t, p.c, a.l, None); }
    } else {
      KeptOnMove(s, t, a);
      MarksMoved(s, s', t);
    }
  }

  lemma KeptOnMove(s: State, t: nat, a: Action)
    requires WeakInv(s) && t < |s.threads| && !WholeTable(s.threads[t])
    requires !s.threads[t].Acquire? && !s.threads[t].GiveUp? && !(s.threads[t].Unlocking? && s.threads[t].left != {})
    ensures var s' := BucketNext(s, t, a);
      && OnlyMoves(s, s', t) && s'.containers == s.containers
      && forall c: nat, l: nat :: InRange(s, c, l) && Held(s.threads[t], c, l) ==> Held(s'.threads[t], c, l)
  {
    if s.threads[t].Check? {
      var Check(op, c) := s.threads[t];
      assert PlaceOk(s, s.threads[t]);
      OpFacts(s, op, c);
      assert op.order[..1] == [op.order[0]];
    }
  }

  /** Every step keeps it. */
  lemma StepKeepsWeakInv(s: State, t: nat, a: Action)
    requires WeakInv(s) && t < |s.threads|
    ensures WeakInv(Next(s, t, a))
  {
    StepLarger(s, t, a);
    StepPlace(s, t, a);
    StepMarks(s, t, a);
    StepOthers(s, Next(s, t, a), t);
  }

  lemma StepOthers(s: State, s': State, t: nat)
    requires WeakInv(s) && Larger(s, s') && OnlyMoves(s, s', t)
    ensures forall u :: 0 <= u < |s'.threads| && u != t ==> PcShape(s', s'.threads[u]) && PlaceOk(s', s'.threads[u])
  {
    forall u | 0 <= u < |s'.threads| && u != t ensures PcShape(s', s'.threads[u]) && PlaceOk(s', s'.threads[u]) {
      OthersPlace(s, s', s.threads[u]);
    }
  }

  lemma {:induction false} RunsKeepWeakInv(s: State, es: seq<Event>, s': State)
    requires WeakInv(s) && Reaches(s, es, s')
    ensures WeakInv(s')
    decreases |es|
  {
    if es != [] {
      StepKeepsWeakInv(s, es[0].t, es[0].a);
      RunsKeepWeakInv(Next(s, es[0].t, es[0].a), es[1..], s');
    }
  }

  /** Who holds the lock t waits for is not t, and if also blocked waits for a
      lock later in the order: a later container, or a later stripe of the same. */
  lemma WaitsUpward(s: State, t: nat) returns (u: nat)
    requires WeakInv(s) && t < |s.threads| && Blocked(s, t)
    ensures u < |s.threads| && Busy(s.threads[u])
    ensures Blocked(s, u) ==>
      var (c, l) := Wanted(s, t);
      var (c', l') := Wanted(s, u);
      c < c' < |s.containers| || (c == c' && l < l' < |s.containers[c]|)
  {
    var (c, l) := Wanted(s, t);
    u := s.containers[c][l].value;
    assert InRange(s, c, l) && Held(s.threads[u], c, l);
    assert PlaceOk(s, s.threads[u]) && PcShape(s, s.threads[u]);
    if s.threads[u].Acquire? {
      OpFacts(s, s.threads[u].op, s.threads[u].c);
    }
  }

  ghost function MaxSize(s: State): (n: nat)
    ensures forall c :: 0 <= c < |s.containers| ==> |s.containers[c]| <= n
  {
    MaxLength(s.containers)
  }

  ghost function MaxLength(cs: seq<seq<Option<nat>>>): (n: nat)
    ensures forall c :: 0 <= c < |cs| ==> |cs[c]| <= n
  {
    if cs == [] then 0
    else
      var m := MaxLength(cs[1..]);
      assert forall c :: 1 <= c < |cs| ==> cs[c] == cs[1..][c - 1];
      if m < |cs[0]| then |cs[0]| else m
  }

  lemma {:induction false} FollowHolders(s: State, t: nat) returns (u: nat)
    requires WeakInv(s) && t < |s.threads| && Busy(s.threads[t])
    ensures u < |s.threads| && Busy(s.threads[u]) && !Blocked(s, u)
    decreases if Blocked(s, t) then |s.containers| - Wanted(s, t).0
      else 0, if Blocked(s, t) then 1 + MaxSize(s) - Wanted(s, t).1 else 0
  {
    if !Blocked(s, t) { return t; }
    u := WaitsUpward(s, t);
    if Blocked(s, u) { u := FollowHolders(s, u); }
  }

  lemma UnblockedMoves(s: State, u: nat) returns (a: Action)
    requires Shape(s) && u < |s.threads| && Busy(s.threads[u]) && !Blocked(s, u)
    ensures Next(s, u, a) != s
  {
    assert PcShape(s, s.threads[u]);
    a := Advance;
    var p := s.threads[u];
    if p.Holding? { a := Unlock; }
    if p.Unlocking? && p.left != {} {
      var l :| l in p.left;
      a := Release(l);
    }
    assert Next(s, u, a).threads[u] != p;
  }

  /** Deadlock freedom, in every run, also one in which release loops have run on:
      as long as some thread is inside a locking operation or holds locks, some such
      thread has a step that changes the state. */
  lemma SomeoneCanStep(s0: State, es: seq<Event>, s: State, t: nat) returns (u: nat, a: Action)
    requires Init(s0) && Reaches(s0, es, s) && t < |s.threads| && Busy(s.threads[t])
    ensures Shape(s) && u < |s.threads| && Busy(s.threads[u]) && Next(s, u, a) != s
  {
    InitWeakInv(s0);
    RunsKeepWeakInv(s0, es, s);
    u := FollowHolders(s, t);
    a := UnblockedMoves(s, u);
  }

  // ------------------------------------------- the release loop can overrun

  lemma {:induction false} Append(s0: State, es: seq<Event>, s: State, t: nat, a: Action, s': State)
      returns (es': seq<Event>)
    requires Reaches(s0, es, s) && Shape(s) && t < |s.threads| && s' == Next(s, t, a) && Shape(s')
    ensures Reaches(s0, es', s')
    decreases |es|
  {
    if es == [] {
      es' := [Event(t, a)];
    } else {
      var rest := Append(Next(s0, es[0].t, es[0].a), es[1..], s, t, a, s');
      es' := [es[0]] + rest;
      assert es'[1..] == rest;
    }
  }

  /** One more step. */
  lemma Extend(s0: State, es: seq<Event>, s: State, t: nat, a: Action, s': State) returns (es': seq<Event>)
    requires Reaches(s0, es, s) && Shape(s) && t < |s.threads| == |s'.threads| && s' == Next(s, t, a)
    requires s'.threads == s.threads[t := s'.threads[t]] && PcShape(s', s'.threads[t])
    requires |s.containers| <= |s'.containers| == |s'.born|
    requires forall c :: 0 <= c < |s.containers| ==> |s'.containers[c]| == |s.containers[c]|
    ensures Reaches(s0, es', s') && Shape(s')
  {
    forall u | 0 <= u < |s'.threads| ensures PcShape(s', s'.threads[u]) {
      if u != t { assert PcShape(s, s.threads[u]); }
    }
    es' := Append(s0, es, s, t, a, s');
  }

  function With(s: State, t: nat, p: Pc, locks: seq<Option<nat>>): State
    requires t < |s.threads|
  {
    s.(threads := s.threads[t := p], containers := [locks])
  }

  /** Thread t begins to lock the whole table. */
  lemma BeginRun(s0: State, es0: seq<Event>, s: State, t: nat) returns (es: seq<Event>)
    requires Reaches(s0, es0, s) && Shape(s) && t < |s.threads| && s.threads[t] == Idle && |s.containers| == 1
    ensures Reaches(s0, es, Go(s, t, AllAcquire(0, 0, 0)))
    ensures Shape(Go(s, t, AllAcquire(0, 0, 0)))
  {
    var s1 := Go(s, t, Known(s.hashpower));
    es := Extend(s0, es0, s, t, Advance, s1);
    es := Extend(s0, es, s1, t, LockAll, Go(s, t, AllStart));
    es := Extend(s0, es, Go(s, t, AllStart), t, Advance, Go(s, t, AllAcquire(0, 0, 0)));
  }

  lemma TakeOne(s0: State, es0: seq<Event>, s: State, t: nat, l: nat, n: nat) returns (es: seq<Event>)
    requires Reaches(s0, es0, s) && Shape(s) && t < |s.threads| && s.threads[t] == AllAcquire(0, 0, l) && l < n
    requires s.containers == [AllOf(l, Some(t)) + AllOf(n - l, None)]
    ensures var s' := With(s, t, AllAcquire(0, 0, l + 1), AllOf(l + 1, Some(t)) + AllOf(n - (l + 1), None));
      Reaches(s0, es, s') && Shape(s')
  {
    var locks := AllOf(l + 1, Some(t)) + AllOf(n - (l + 1), None);
    assert s.containers[0][l := Some(t)] == locks;
    es := Extend(s0, es0, s, t, Advance, With(s, t, AllAcquire(0, 0, l + 1), locks));
  }

  /** One container of n free locks: t takes them all. */
  lemma {:induction false} TakeRun(s0: State, es0: seq<Event>, s: State, t: nat, l: nat, n: nat)
      returns (es: seq<Event>)
    requires Reaches(s0, es0, s) && Shape(s) && t < |s.threads| && s.threads[t] == AllAcquire(0, 0, l) && l <= n
    requires s.containers == [AllOf(l, Some(t)) + AllOf(n - l, None)]
    ensures Reaches(s0, es, With(s, t, AllHeld(0), AllOf(n, Some(t))))
      && Shape(With(s, t, AllHeld(0), AllOf(n, Some(t))))
    decreases n - l
  {
    if l == n {
      assert AllOf(n, Some(t)) + AllOf(0, None) == AllOf(n, Some(t));
      es := Extend(s0, es0, s, t, Advance, With(s, t, AllHeld(0), AllOf(n, Some(t))));
    } else {
      var s1 := With(s, t, AllAcquire(0, 0, l + 1), AllOf(l + 1, Some(t)) + AllOf(n - (l + 1), None));
      es := TakeOne(s0, es0, s, t, l, n);
      es := TakeRun(s0, es, s1, t, l + 1, n);
      assert s1.threads[t := AllHeld(0)] == s.threads[t := AllHeld(0)];
    }
  }

  lemma ReleaseOne(s0: State, es0: seq<Event>, s: State, t: nat, l: nat, n: nat) returns (es: seq<Event>)
    requires Reaches(s0, es0, s) && Shape(s) && t < |s.threads| && s.threads[t] == AllRelease(0, l, 0) && l < n
    requires s.containers == [AllOf(l, None) + AllOf(n - l, Some(t))]
    ensures var s' := With(s, t, AllRelease(0, l + 1, 0), AllOf(l + 1, None) + AllOf(n - (l + 1), Some(t)));
      Reaches(s0, es, s') && Shape(s')
  {
    var locks := AllOf(l + 1, None) + AllOf(n - (l + 1), Some(t));
    assert s.containers[0][l := None] == locks;
    es := Extend(s0, es0, s, t, Advance, With(s, t, AllRelease(0, l + 1, 0), locks));
  }

  /** ... and t releases them all, up to the end test. */
  lemma {:induction false} ReleaseRun(s0: State, es0: seq<Event>, s: State, t: nat, l: nat, n: nat)
      returns (es: seq<Event>)
    requires Reaches(s0, es0, s) && Shape(s) && t < |s.threads| && s.threads[t] == AllRelease(0, l, 0) && l <= n
    requires s.containers == [AllOf(l, None) + AllOf(n - l, Some(t))]
    ensures Reaches(s0, es, With(s, t, AllRelease(0, n, 0), AllOf(n, None)))
      && Shape(With(s, t, AllRelease(0, n, 0), AllOf(n, None)))
    decreases n - l
  {
    if l == n {
      assert AllOf(n, None) + AllOf(0, Some(t)) == AllOf(n, None);
      assert With(s, t, AllRelease(0, n, 0), AllOf(n, None)) == s;
      es := es0;
    } else {
      var s1 := With(s, t, AllRelease(0, l + 1, 0), AllOf(l + 1, None) + AllOf(n - (l + 1), Some(t)));
      es := ReleaseOne(s0, es0, s, t, l, n);
      es := ReleaseRun(s0, es, s1, t, l + 1, n);
      assert s1.threads[t := AllRelease(0, n, 0)] == s.threads[t := AllRelease(0, n, 0)];
    }
  }

  /** Thread t takes the whole table. */
  lemma WholeTableRun(s0: State, es0: seq<Event>, s: State, t: nat, n: nat) returns (es: seq<Event>)
    requires Reaches(s0, es0, s) && Shape(s) && t < |s.threads| && s.threads[t] == Idle
      && s.containers == [AllOf(n, None)]
    ensures Reaches(s0, es, With(s, t, AllHeld(0), AllOf(n, Some(t))))
      && Shape(With(s, t, AllHeld(0), AllOf(n, Some(t))))
  {
    es := BeginRun(s0, es0, s, t);
    NoneTakenYet(s, t, AllAcquire(0, 0, 0), n);
    es := TakeRun(s0, es, Go(s, t, AllAcquire(0, 0, 0)), t, 0, n);
    WithAfterGo(s, t, AllAcquire(0, 0, 0), AllHeld(0), AllOf(n, Some(t)));
  }

  lemma NoneTakenYet(s: State, t: nat, p: Pc, n: nat)
    requires t < |s.threads| && s.containers == [AllOf(n, None)]
    ensures var s' := Go(s, t, p);
      t < |s'.threads| && s'.threads[t] == p && s'.containers == [AllOf(0, Some(t)) + AllOf(n - 0, None)]
  {
    assert AllOf(n, None) == AllOf(0, Some(t)) + AllOf(n, None);
  }

  lemma WithAfterGo(s: State, t: nat, p: Pc, q: Pc, locks: seq<Option<nat>>)
    requires t < |s.threads|
    ensures With(Go(s, t, p), t, q, locks) == With(s, t, q, locks)
  {
    assert s.threads[t := p][t := q] == s.threads[t := q];
  }

  /** Thread 0 takes the whole table and releases it, up to the end test. */
  lemma FirstWholeTable(s0: State) returns (es: seq<Event>, s: State)
    requires Init(s0) && |s0.threads| >= 2
    ensures Reaches(s0, es, s) && Shape(s)
    ensures var n := Min(MAX_NUM_LOCKS, Pow2(s0.hashpower));
      s == s0.(threads := s0.threads[0 := AllRelease(0, n, 0)], containers := [AllOf(n, None)])
  {
    var n := Min(MAX_NUM_LOCKS, Pow2(s0.hashpower));
    assert s0.containers[0] == AllOf(n, None);
    es := WholeTableRun(s0, [], s0, 0, n);
    s := With(s0, 0, AllHeld(0), AllOf(n, Some(0)));
    es := Extend(s0, es, s, 0, Advance, Go(s, 0, AllRelease(0, 0, 0)));
    s := Go(s, 0, AllRelease(0, 0, 0));
    assert AllOf(n, Some(0)) == AllOf(0, None) + AllOf(n, Some(0));
    es := ReleaseRun(s0, es, s, 0, 0, n);
    s := With(s, 0, AllRelease(0, n, 0), AllOf(n, None));
    assert s.threads == s0.threads[0 := AllRelease(0, n, 0)];
  }

  /** ... then thread 1 takes it. */
  lemma TwoWholeTableOperations(s0: State) returns (es: seq<Event>, s: State)
    requires Init(s0) && |s0.threads| >= 2
    ensures Reaches(s0, es, s) && Shape(s)
    ensures var n := Min(MAX_NUM_LOCKS, Pow2(s0.hashpower));
      s == s0.(threads := s0.threads[0 := AllRelease(0, n, 0)][1 := AllHeld(0)], containers := [AllOf(n, Some(1))])
  {
    var n := Min(MAX_NUM_LOCKS, Pow2(s0.hashpower));
    es, s := FirstWholeTable(s0);
    es := WholeTableRun(s0, es, s, 1, n);
    s := With(s, 1, AllHeld(0), AllOf(n, Some(1)));
  }

  /** Thread 1 appends a container. */
  lemma AppendRun(s0: State, es0: seq<Event>, s: State, n: nat, m: nat) returns (es: seq<Event>, s': State)
    requires Reaches(s0, es0, s) && Shape(s) && |s.threads| >= 2
      && 0 < n < m == Min(MAX_NUM_LOCKS, Pow2(s.hashpower + 1))
    requires s.containers == [AllOf(n, Some(1))] && s.threads[1] == AllHeld(0)
    ensures Reaches(s0, es, s') && Shape(s')
    ensures s' == s.(threads := s.threads[1 := SetHp(0, s.hashpower + 1)],
                     containers := [AllOf(n, Some(1)), AllOf(m, Some(1))], born := s.born + [s.hashpower])
  {
    var h := s.hashpower;
    s' := s.(threads := s.threads[1 := SetHp(0, h + 1)], containers := [AllOf(n, Some(1)), AllOf(m, Some(1))],
      born := s.born + [h]);
    assert ResizeLocks(s, 1, Pow2(h + 1)).containers[1] == AllOf(m, Some(1));
    assert ResizeLocks(s, 1, Pow2(h + 1)).containers == s'.containers;
    es := Extend(s0, es0, s, 1, Grow(h, h + 1), s');
  }

  /** Container 1, all of whose locks thread 1 holds, while thread 0 releases
      them: l of its m locks are released. */
  function Losing(s: State, p: Pc, l: nat, m: nat): State
    requires |s.threads| >= 2 && |s.containers| == 2 && l <= m
  {
    s.(threads := s.threads[0 := p], containers := [s.containers[0], AllOf(l, None) + AllOf(m - l, Some(1))])
  }

  lemma LoseOne(s0: State, es0: seq<Event>, s: State, l: nat, m: nat) returns (es: seq<Event>)
    requires |s.threads| >= 2 && |s.containers| == 2 && l < m && s == Losing(s, AllRelease(1, l, 0), l, m)
    requires Reaches(s0, es0, s) && Shape(s)
    ensures var s' := Losing(s, AllRelease(1, l + 1, 0), l + 1, m); Reaches(s0, es, s') && Shape(s')
  {
    assert s.threads[0] == AllRelease(1, l, 0) && |s.containers[1]| == m;
    assert s.containers[1][l := None] == AllOf(l + 1, None) + AllOf(m - (l + 1), Some(1));
    var s' := Losing(s, AllRelease(1, l + 1, 0), l + 1, m);
    assert s'.containers == s.containers[1 := s.containers[1][l := None]];
    es := Extend(s0, es0, s, 0, Advance, s');
  }

  lemma {:induction false} LoseAll(s0: State, es0: seq<Event>, s: State, l: nat, m: nat) returns (es: seq<Event>)
    requires |s.threads| >= 2 && |s.containers| == 2 && l <= m && s == Losing(s, AllRelease(1, l, 0), l, m)
    requires Reaches(s0, es0, s) && Shape(s)
    ensures var s' := Losing(s, AllRelease(1, m, 0), m, m); Reaches(s0, es, s') && Shape(s')
    decreases m - l
  {
    if l == m {
      es := es0;
    } else {
      var s1 := Losing(s, AllRelease(1, l + 1, 0), l + 1, m);
      es := LoseOne(s0, es0, s, l, m);
      LosingTwice(s, AllRelease(1, l + 1, 0), l + 1, AllRelease(1, l + 1, 0), l + 1, m);
      es := LoseAll(s0, es, s1, l + 1, m);
      LosingTwice(s, AllRelease(1, l + 1, 0), l + 1, AllRelease(1, m, 0), m, m);
    }
  }

  lemma LosingTwice(s: State, p: Pc, l: nat, p': Pc, l': nat, m: nat)
    requires |s.threads| >= 2 && |s.containers| == 2 && l <= m && l' <= m
    ensures Losing(Losing(s, p, l, m), p', l', m) == Losing(s, p', l', m)
  {
    assert s.threads[0 := p][0 := p'] == s.threads[0 := p'];
  }

  /** Thread 0's end test then finds it, and thread 0 releases all of thread 1's
      locks in it. */
  lemma Overrun(s0: State, es0: seq<Event>, s: State, n: nat, m: nat) returns (es: seq<Event>, s': State)
    requires Reaches(s0, es0, s) && Shape(s) && |s.threads| >= 2
    requires 0 < n < m == Min(MAX_NUM_LOCKS, Pow2(s.hashpower + 1))
    requires s.containers == [AllOf(n, Some(1))] && s.threads[0] == AllRelease(0, n, 0) && s.threads[1] == AllHeld(0)
    ensures Reaches(s0, es, s') && Shape(s') && |s'.threads| >= 2 && s'.hashpower == s.hashpower
    ensures s'.threads[0] == Idle && s'.threads[1] == SetHp(0, s.hashpower + 1)
    ensures s'.containers == [AllOf(n, Some(1)), AllOf(m, None)]
  {
    var s1;
    es, s1 := AppendRun(s0, es0, s, n, m);
    var s2 := Go(s1, 0, AllRelease(1, 0, 0));
    es := Extend(s0, es, s1, 0, Advance, s2);
    es, s' := OverrunOn(s0, es, s2, m);
  }

  lemma OverrunOn(s0: State, es0: seq<Event>, s: State, m: nat) returns (es: seq<Event>, s': State)
    requires Reaches(s0, es0, s) && Shape(s) && |s.threads| >= 2 && |s.containers| == 2
    requires s.threads[0] == AllRelease(1, 0, 0) && s.containers[1] == AllOf(m, Some(1))
    ensures Reaches(s0, es, s') && Shape(s')
    ensures s' == s.(threads := s.threads[0 := Idle], containers := [s.containers[0], AllOf(m, None)])
  {
    assert AllOf(m, Some(1)) == AllOf(0, None) + AllOf(m, Some(1));
    assert s == Losing(s, AllRelease(1, 0, 0), 0, m);
    es := LoseAll(s0, es0, s, 0, m);
    var s1 := Losing(s, AllRelease(1, m, 0), m, m);
    assert AllOf(m, None) + AllOf(0, Some(1)) == AllOf(m, None);
    s' := Go(s1, 0, Idle);
    es := Extend(s0, es, s1, 0, Advance, s');
    assert s.threads[0 := AllRelease(1, m, 0)][0 := Idle] == s.threads[0 := Idle];
  }

  /** Thread 0 asks for bucket 0. */
  lemma AskForBucket(s0: State, es0: seq<Event>, s: State) returns (es: seq<Event>)
    requires Reaches(s0, es0, s) && Shape(s) && |s.threads| >= 2 && s.threads[0] == Idle
    ensures var s' := Go(s, 0, GetLocks(Op(s.hashpower, [0], [0]))); Reaches(s0, es, s') && Shape(s')
  {
    var h := s.hashpower;
    assert LockOrder([0]) == [0];
    es := Extend(s0, es0, s, 0, Advance, Go(s, 0, Known(h)));
    es := Extend(s0, es, Go(s, 0, Known(h)), 0, Want([0]), Go(s, 0, GetLocks(Op(h, [0], [0]))));
  }

  lemma TakeStripeZero(s0: State, es0: seq<Event>, s: State) returns (es: seq<Event>, s': State)
    requires Reaches(s0, es0, s) && Shape(s) && |s.threads| >= 2 && s.threads[0] == Idle && |s.containers| == 2
    requires s.containers[1] != [] && s.containers[1][0] == None
    ensures Reaches(s0, es, s') && Shape(s')
    ensures s' == SetLock(Go(s, 0, Check(Op(s.hashpower, [0], [0]), 1)), 1, 0, Some(0))
  {
    var op := Op(s.hashpower, [0], [0]);
    es := AskForBucket(s0, es0, s);
    es := Extend(s0, es, Go(s, 0, GetLocks(op)), 0, Advance, Go(s, 0, Acquire(op, 1, 0)));
    s' := SetLock(Go(s, 0, Check(op, 1)), 1, 0, Some(0));
    es := Extend(s0, es, Go(s, 0, Acquire(op, 1, 0)), 0, Advance, s');
  }

  /** Thread 0 locks bucket 0 in the last container: lock 0 is free, and the
      hashpower has not changed. */
  lemma SlipIn(s0: State, es0: seq<Event>, s: State) returns (es: seq<Event>, s': State)
    requires Reaches(s0, es0, s) && Shape(s) && |s.threads| >= 2 && s.threads[0] == Idle && |s.containers| == 2
    requires s.containers[1] != [] && s.containers[1][0] == None
    ensures Reaches(s0, es, s') && Shape(s')
    ensures s' == SetLock(Go(s, 0, Holding(Op(s.hashpower, [0], [0]), 1)), 1, 0, Some(0))
  {
    var s1;
    es, s1 := TakeStripeZero(s0, es0, s);
    s' := SetLock(Go(s, 0, Holding(Op(s.hashpower, [0], [0]), 1)), 1, 0, Some(0));
    es := Extend(s0, es, s1, 0, Advance, s');
  }

  /** The release of all locks tests for the end of the container list after its
      last release, when it no longer holds anything.  If another thread appends a
      container in between, the loop runs on into locks it does not hold.  So any
      table that can still grow its locks can come to this with two threads: one
      holds bucket 0, having checked the hashpower, and then the other, which took
      the whole table, publishes a new hashpower under it. */
  lemma ReleaseCanOverrun(s0: State) returns (es: seq<Event>, s: State)
    requires Init(s0) && |s0.threads| >= 2 && Pow2(s0.hashpower) < MAX_NUM_LOCKS
    ensures Reaches(s0, es, s) && Shape(s) && |s.threads| >= 2
    ensures s.threads[0].Holding? && s.threads[0].op.buckets == [0]
    ensures s.threads[0].op.hp == s.hashpower - 1 && s.threads[1].AllRelease?
  {
    es, s := TwoWholeTableOperations(s0);
    var n := Pow2(s0.hashpower);
    es, s := Overrun(s0, es, s, n, Min(MAX_NUM_LOCKS, 2 * n));
    es, s := SlipIn(s0, es, s);
    var s' := Go(s, 1, AllRelease(0, 0, 1)).(hashpower := s.hashpower + 1);
    es := Extend(s0, es, s, 1, Advance, s');
    s := s';
  }

  /** Every bucket that a thread has locked is locked as LockedBucketsAreCurrent says. */
  ghost predicate LocksSound(s: State) {
    forall t, k :: 0 <= t < |s.threads| && s.threads[t].Holding? && 0 <= k < |s.threads[t].op.buckets| ==>
      LockedIsCurrent(s, t, k)
  }

  /** In every run from s0 the release loop keeps to its own locks. */
  ghost predicate AlwaysClean(s0: State) {
    forall es, s {:trigger Reaches(s0, es, s)} :: Reaches(s0, es, s) ==> Clean(s0, es)
  }

  ghost predicate AlwaysSound(s0: State) {
    forall es, s {:trigger Reaches(s0, es, s)} :: Reaches(s0, es, s) ==> LocksSound(s)
  }

  lemma AlwaysWithoutOverrun(s0: State)
    requires Init(s0) && NothingToOverrun(s0)
    ensures AlwaysClean(s0) && AlwaysSound(s0)
  {
    InitInv(s0);
    forall es, s | Reaches(s0, es, s) ensures Clean(s0, es) && LocksSound(s) {
      CleanWithoutOverrun(s0, es, s);
      CleanIsSound(s0, es, s);
    }
  }

  lemma NotAlwaysWithOverrun(s0: State)
    requires Init(s0) && |s0.threads| >= 2 && Pow2(s0.hashpower) < MAX_NUM_LOCKS
    ensures !AlwaysClean(s0) && !AlwaysSound(s0)
  {
    var es, s := ReleaseCanOverrun(s0);
    NotSound(s);
    if Clean(s0, es) {
      CleanIsSound(s0, es, s);
      assert false;
    }
  }

  lemma NotSound(s: State)
    requires |s.threads| >= 2 && s.threads[0].Holding? && s.threads[0].op.buckets == [0]
      && s.threads[0].op.hp != s.hashpower
    ensures !LocksSound(s)
  {
    assert !LockedIsCurrent(s, 0, 0);
  }

  /** In no run of the table does the release loop go wrong, whatever its threads do,
      exactly when one thread alone uses it or it starts with the maximum number of
      locks; and exactly then is every bucket that a thread has locked, in every
      state, locked in the current container with the current hashpower. */
  lemma LockingSoundExactlyWhen(s0: State)
    requires Init(s0)
    ensures AlwaysClean(s0) <==> |s0.threads| <= 1 || Pow2(s0.hashpower) >= MAX_NUM_LOCKS
    ensures AlwaysSound(s0) <==> |s0.threads| <= 1 || Pow2(s0.hashpower) >= MAX_NUM_LOCKS
  {
    if |s0.threads| <= 1 || Pow2(s0.hashpower) >= MAX_NUM_LOCKS {
      AlwaysWithoutOverrun(s0);
    } else {
      NotAlwaysWithOverrun(s0);
    }
  }

  lemma CleanIsSound(s0: State, es: seq<Event>, s: State)
    requires Init(s0) && Reaches(s0, es, s) && Clean(s0, es)
    ensures LocksSound(s)
  {
    forall t, k | 0 <= t < |s.threads| && s.threads[t].Holding? && 0 <= k < |s.threads[t].op.buckets|
      ensures LockedIsCurrent(s, t, k) {
      LockedBucketsAreCurrent(s0, es, s, t, k);
    }
  }

  /** Whole-table operations never overlap: one starts only when no other thread
      is in one. */
  ghost predicate OneAtATime(s: State, es: seq<Event>)
    decreases |es|
  {
    es != [] && Shape(s) && es[0].t < |s.threads| ==>
      && (s.threads[es[0].t].Known? && es[0].a.LockAll? ==> forall u :: 0 <= u < |s.threads| ==>
        !WholeTable(s.threads[u]))
      && OneAtATime(Next(s, es[0].t, es[0].a), es[1..])
  }

  /** At most one thread is in a whole-table operation, and the last container it
      locked is still the last. */
  ghost predicate Solo(s: State) {
    && (forall t, u ::
      0 <= t < |s.threads| && 0 <= u < |s.threads| && WholeTable(s.threads[t]) && WholeTable(s.threads[u]) ==> t == u)
    && (forall t :: 0 <= t < |s.threads| && s.threads[t].AllRelease? ==> s.threads[t].last == Back(s))
  }

  lemma SoloStep(s: State, t: nat, a: Action)
    requires Inv(s) && Solo(s) && t < |s.threads|
    requires s.threads[t].Known? && a.LockAll? ==> forall u :: 0 <= u < |s.threads| ==> !WholeTable(s.threads[u])
    ensures !Steals(s, t) && Solo(Next(s, t, a))
  {
    assert PcOk(s, t) && PcShape(s, s.threads[t]);
    if WholeTable(s.threads[t]) {
      SoloTable(s, t, a);
    } else {
      SoloBucket(s, t, a);
    }
  }

  lemma SoloTable(s: State, t: nat, a: Action)
    requires Shape(s) && Solo(s) && t < |s.threads| && WholeTable(s.threads[t])
    ensures Solo(TableNext(s, t, a))
  {
  }

  lemma SoloBucket(s: State, t: nat, a: Action)
    requires Shape(s) && Solo(s) && t < |s.threads| && !WholeTable(s.threads[t])
    requires s.threads[t].Known? && a.LockAll? ==> forall u :: 0 <= u < |s.threads| ==> !WholeTable(s.threads[u])
    ensures Solo(BucketNext(s, t, a))
  {
    var s' := BucketNext(s, t, a);
    assert |s'.containers| == |s.containers| && |s'.threads| == |s.threads|
      && s'.threads == s.threads[t := s'.threads[t]];
    assert WholeTable(s'.threads[t]) ==> s'.threads[t] == AllStart;
  }

  /** If callers run whole-table operations one at a time, no lock is stolen. */
  lemma {:induction false} OneAtATimeIsClean(s: State, es: seq<Event>, s': State)
    requires Inv(s) && Solo(s) && Reaches(s, es, s') && OneAtATime(s, es)
    ensures Clean(s, es)
    decreases |es|
  {
    if es != [] {
      SoloStep(s, es[0].t, es[0].a);
      StepExact(s, es[0].t, es[0].a);
      OneAtATimeIsClean(Next(s, es[0].t, es[0].a), es[1..], s');
    }
  }

  // ------------------------------------------------------ the code, in place

  /** The map's locks and hashpower.  Each method makes one step of the code and
      says what the whole new state is; StepExact says which steps keep Inv. */
  class Locks {
    var hashpower: nat
    var containers: seq<seq<Option<nat>>>
    var threads: seq<Pc>
    ghost var born: seq<nat>

    ghost function View(): State
      reads this
    {
      State(hashpower, containers, threads, born)
    }

    constructor (hp: nat, n: nat)
      ensures Init(View()) && hashpower == hp && |threads| == n
    {
      hashpower := hp;
      containers := [AllOf(Min(MAX_NUM_LOCKS, Pow2(hp)), None)];
      threads, born := seq(n, _ => Idle), [0];
    }

    /** The stripes in locking order, by the source's swaps on a small array. */
    static method SortStripes(buckets: seq<nat>) returns (order: seq<nat>)
      requires |buckets| == 3
      ensures order == LockOrder(buckets)
    {
      var l := new nat[] [LockInd(buckets[0]), LockInd(buckets[1]), LockInd(buckets[2])];
      if l[2] < l[1] { l[2], l[1] := l[1], l[2]; }
      if l[2] < l[0] { l[2], l[0] := l[0], l[2]; }
      if l[1] < l[0] { l[1], l[0] := l[0], l[1]; }
      order := [l[0]];
      if l[1] != l[0] { order := order + [l[1]]; }
      if l[2] != l[1] { order := order + [l[2]]; }
    }

    method Store(c: nat, l: nat, v: Option<nat>)
      requires c < |containers| && l < |containers[c]|
      modifies this`containers
      ensures View() == SetLock(old(View()), c, l, v)
    {
      containers := containers[c := containers[c][l := v]];
    }

    /** lock_one, lock_two and lock_three, from the loads of hashpower and of the
        current container. */
    method BeginLock(t: nat, buckets: seq<nat>)
      requires Shape(View()) && t < |threads|
      requires threads[t].Idle? || (threads[t].Known? && ValidWant(threads[t].hp, buckets)) || threads[t].GetLocks?
      modifies this`threads
      ensures View() == BucketNext(old(View()), t, Want(buckets))
    {
      match threads[t] {
        case Idle =>
          threads := threads[t := Known(hashpower)];
        case Known(hp) =>
          threads := threads[t := GetLocks(Op(hp, buckets, LockOrder(buckets)))];
        case GetLocks(op) =>
          threads := threads[t := Acquire(op, |containers| - 1, 0)];
      }
    }

    /** locks[order[n]].lock(): one try. */
    method TryStripe(t: nat) returns (taken: bool)
      requires Shape(View()) && t < |threads| && threads[t].Acquire?
      modifies this`threads, this`containers
      ensures View() == BucketNext(old(View()), t, Advance)
      ensures taken <==> !Blocked(old(View()), t)
    {
      assert PcShape(View(), threads[t]);
      var Acquire(op, c, n) := threads[t];
      taken := containers[c][op.order[n]].None?;
      if taken {
        Store(c, op.order[n], Some(t));
        threads := threads[t := AfterStripe(op, c, n)];
      }
    }

    /** check_hashpower, and the unlock before it throws. */
    method CheckHashpower(t: nat)
      requires Shape(View()) && t < |threads| && (threads[t].Check? || threads[t].GiveUp?)
      modifies this`threads, this`containers
      ensures View() == BucketNext(old(View()), t, Advance)
    {
      assert PcShape(View(), threads[t]);
      match threads[t] {
        case Check(op, c) =>
          if hashpower != op.hp {
            threads := threads[t := GiveUp(op, c)];
          } else {
            threads := threads[t := if |op.order| > 1 then Acquire(op, c, 1) else Holding(op, c)];
          }
        case GiveUp(op, c) =>
          Store(c, op.order[0], None);
          threads := threads[t := Idle];
      }
    }

    /** TwoBuckets::unlock and the lock managers' destructors: one stripe. */
    method UnlockStripe(t: nat, l: nat)
      requires Shape(View()) && t < |threads| && threads[t].Unlocking? && l in threads[t].left
      modifies this`threads, this`containers
      ensures View() == BucketNext(old(View()), t, Release(l))
    {
      assert PcShape(View(), threads[t]);
      var Unlocking(op, c, left) := threads[t];
      Store(c, l, None);
      threads := threads[t := Unlocking(op, c, left - {l})];
    }

    /** snapshot_and_lock_all. */
    method LockAllStep(t: nat)
      requires Shape(View()) && t < |threads| && (threads[t].AllStart? || threads[t].AllAcquire?)
      modifies this`threads, this`containers
      ensures View() == TableNext(old(View()), t, Advance)
    {
      assert PcShape(View(), threads[t]);
      match threads[t] {
        case AllStart =>
          threads := threads[t := AllAcquire(|containers| - 1, |containers| - 1, 0)];
        case AllAcquire(first, c, l) =>
          if l == |containers[c]| {
            threads := threads[t := if c + 1 < |containers| then AllAcquire(first, c + 1, 0) else AllHeld(first)];
          } else if containers[c][l].None? {
            Store(c, l, Some(t));
            threads := threads[t := AllAcquire(first, c, l + 1)];
          }
      }
    }

    /** check_resize_validity's last test, then maybe_resize_locks. */
    method MaybeResizeLocks(t: nat, orig_hp: nat, new_hp: nat)
      requires Shape(View()) && t < |threads| && threads[t].AllHeld?
      modifies this
      ensures View() == TableNext(old(View()), t, Grow(orig_hp, new_hp))
    {
      var first := threads[t].first;
      if orig_hp == hashpower && new_hp > orig_hp {
        threads := threads[t := SetHp(first, new_hp)];
        var n := |containers[|containers| - 1]|;
        if n < MAX_NUM_LOCKS && n < Pow2(new_hp) {
          containers := containers + [AllOf(Min(MAX_NUM_LOCKS, Pow2(new_hp)), Some(t))];
          born := born + [hashpower];
        }
      } else {
        threads := threads[t := AllRelease(first, 0, |containers| - 1)];
      }
    }

    /** buckets_.swap, then AllUnlocker. */
    method UnlockAllStep(t: nat)
      requires Shape(View()) && t < |threads| && (threads[t].SetHp? || threads[t].AllRelease?)
      modifies this
      ensures View() == TableNext(old(View()), t, Advance)
    {
      assert PcShape(View(), threads[t]);
      match threads[t] {
        case SetHp(first, hp) =>
          hashpower, threads := hp, threads[t := AllRelease(first, 0, |containers| - 1)];
        case AllRelease(c, l, last) =>
          if l < |containers[c]| {
            Store(c, l, None);
            threads := threads[t := AllRelease(c, l + 1, last)];
          } else {
            threads := threads[t := if c + 1 < |containers| then AllRelease(c + 1, 0, last) else Idle];
          }
      }
    }
  }
}
