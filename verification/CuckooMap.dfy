/**
 The cuckoo map as one thread sees it with the table locked: a finite map, kept in
 buckets by cuckoo hashing, with element counters striped over the locks.
 */
module CuckooMap {
  import opened Prelude
  import opened Modular
  import opened Buckets
  import opened CuckooHash
  import opened CuckooTable
  import CuckooPath
  import CuckooSearch
  import CuckooDouble
  import Locks = StripedLocks

  // --------------------------------------------------------------- counters

  function Sum(c: seq<int>): int { if c == [] then 0 else c[0] + Sum(c[1..]) }

  lemma {:induction false} SumUpdate(c: seq<int>, i: nat, v: int)
    requires i < |c|
    ensures Sum(c[i := v]) == Sum(c) - c[i] + v
  {
    if i == 0 {
      assert c[i := v][1..] == c[1..];
    } else {
      assert c[i := v][1..] == c[1..][i - 1 := v];
      SumUpdate(c[1..], i - 1, v);
    }
  }

  lemma {:induction false} SumAppend(c: seq<int>, d: seq<int>)
    ensures Sum(c + d) == Sum(c) + Sum(d)
  {
    if c == [] {
      assert c + d == d;
    } else {
      assert (c + d)[1..] == c[1..] + d;
      SumAppend(c[1..], d);
    }
  }

  function ZeroCounters(n: nat): (r: seq<int>)
    ensures |r| == n && forall i :: 0 <= i < n ==> r[i] == 0
  {
    seq(n, _ => 0)
  }

  lemma {:induction false} SumZero(c: seq<int>)
    requires forall i :: 0 <= i < |c| ==> c[i] == 0
    ensures Sum(c) == 0
  {
    if c != [] { SumZero(c[1..]); }
  }

  lemma OneMore<K, V>(m: map<K, V>, k: K, v: V)
    requires k !in m
    ensures |m[k := v]| == |m| + 1
  {
    assert m[k := v].Keys == m.Keys + {k};
    assert |m[k := v]| == |m[k := v].Keys| && |m| == |m.Keys|;
  }

  lemma OneLess<K, V>(m: map<K, V>, k: K)
    requires k in m
    ensures |m - {k}| == |m| - 1
  {
    assert m.Keys == (m - {k}).Keys + {k};
    assert |m - {k}| == |(m - {k}).Keys| && |m| == |m.Keys|;
  }

  lemma EraseAfterUpdate<K, V>(m: map<K, V>, k: K, v: V)
    ensures m[k := v] - {k} == m - {k}
  {
  }

  lemma SameSize<K, V>(m: map<K, V>, k: K, v: V)
    requires k in m
    ensures |m[k := v]| == |m|
  {
    assert m[k := v].Keys == m.Keys;
    assert |m[k := v]| == |m[k := v].Keys| && |m| == |m.Keys|;
  }

  // ------------------------------------------------------------------ limits

  const DEFAULT_MINIMUM_LOAD_FACTOR: real := 0.05

  datatype Error = MaximumHashpowerExceeded(hp: nat) | LoadFactorTooLow(mlf: real)
  datatype Status = Ok | Duplicated | TableFull
  datatype Result<+T> = Success(value: T) | Failure(error: Error)

  /** hp is the smallest hashpower whose buckets hold n elements. */
  predicate JustHolds(hp: nat, n: nat, S: nat) {
    n <= Pow2(hp) * S && forall x: nat :: x < hp ==> Pow2(x) * S < n
  }

  /** reserve_calc */
  method ReserveCalc(n: nat, S: nat) returns (blog2: nat)
    requires S > 0
    ensures JustHolds(blog2, n, S)
  {
    var buckets := (n + S - 1) / S;
    BucketsFor(n, S);
    blog2 := 0;
    while Pow2(blog2) < buckets
      invariant forall x: nat :: x < blog2 ==> Pow2(x) * S < n
      decreases buckets - Pow2(blog2)
    {
      NotEnough(Pow2(blog2), n, S);
      blog2 := blog2 + 1;
    }
    MulMono(buckets, Pow2(blog2), S);
  }

  lemma OneSmallest(hp: nat, n: nat, S: nat)
    requires JustHolds(hp, n, S)
    ensures forall x: nat :: JustHolds(x, n, S) ==> x == hp
  {
    forall x: nat | JustHolds(x, n, S) ensures x == hp {
      if x < hp { assert false; }
    }
  }

  lemma BucketsFor(n: nat, S: nat)
    requires S > 0
    ensures n <= (n + S - 1) / S * S < n + S
  {
    var x := n + S - 1;
    assert x == x / S * S + x % S;
  }

  lemma NotEnough(b: nat, n: nat, S: nat)
    requires S > 0 && b < (n + S - 1) / S
    ensures b * S < n
  {
    BucketsFor(n, S);
    MulMono(b + 1, (n + S - 1) / S, S);
  }

  /** load_factor() < mlf */
  predicate LoadBelow(size: nat, hp: nat, S: nat, mlf: real) {
    Pow2(hp) * S > 0 && size as real / (Pow2(hp) * S) as real < mlf
  }

  /** An expansion that the load factor allows happens at a hashpower bounded by
      the number of elements. */
  lemma LoadBoundsHashpower(hp: nat, S: nat, size: nat, mlf: real)
    requires S > 0 && mlf > 0.0 && !LoadBelow(size, hp, S, mlf)
    ensures hp < LoadLimit(size, mlf)
  {
    var cap := Pow2(hp) * S;
    PowAbove(hp);
    MulMono(1, S, Pow2(hp));
    DivideOver(size as real, cap as real, mlf);
    assert cap as real <= size as real / mlf;
  }

  lemma DivideOver(size: real, cap: real, mlf: real)
    requires mlf > 0.0 && cap > 0.0 && size / cap >= mlf
    ensures cap <= size / mlf
  {
    assert size == size / cap * cap;
    assert size >= mlf * cap;
    assert size / mlf >= mlf * cap / mlf;
    assert mlf * cap / mlf == cap;
  }

  function LoadLimit(size: nat, mlf: real): int
    requires mlf > 0.0
  {
    (size as real / mlf).Floor + 1
  }

  lemma LoadGrows(size: nat, more: nat, hp: nat, S: nat, mlf: real)
    requires size <= more && !LoadBelow(size, hp, S, mlf)
    ensures !LoadBelow(more, hp, S, mlf)
  {
    if Pow2(hp) * S > 0 { DivideMono(size as real, more as real, (Pow2(hp) * S) as real); }
  }

  lemma DivideMono(a: real, b: real, c: real)
    requires a <= b && c > 0.0
    ensures a / c <= b / c
  {
    assert a == a / c * c && b == b / c * c;
  }

  lemma {:induction false} PowAbove(hp: nat)
    ensures hp < Pow2(hp)
  {
    if hp > 0 { PowAbove(hp - 1); }
  }

  // ---------------------------------------------------------- why a map grows

  /** Why a table of hashpower hp that stores m doubles for key k: the other keys
      are enough to fill both of k's buckets, and the load factor allows it. */
  ghost predicate GrowsFor<K, V>(h: K -> nat, hp: nat, S: nat, mlf: real, m: map<K, V>, k: K) {
    Crowded(h, hp, S, m.Keys, k) && !LoadBelow(|m|, hp, S, mlf)
  }

  ghost predicate GrownFor<K, V>(h: K -> nat, S: nat, mlf: real, m: map<K, V>, k: K, from: nat, to: nat) {
    from <= to && forall hp :: from <= hp < to ==> GrowsFor(h, hp, S, mlf, m, k)
  }

  /** Some key of m is a reason to double a table of hashpower hp. */
  ghost predicate MayGrow<K, V>(h: K -> nat, hp: nat, S: nat, mlf: real, m: map<K, V>) {
    exists k :: k in m && GrowsFor(h, hp, S, mlf, m, k)
  }

  ghost predicate Grown<K, V>(h: K -> nat, S: nat, mlf: real, m: map<K, V>, from: nat, to: nat) {
    from <= to && forall hp :: from <= hp < to ==> MayGrow(h, hp, S, mlf, m)
  }

  /** A table of hashpower hp that gets m's elements may refuse one of them: the
      others are enough to fill its buckets, and one bucket's worth of elements is
      too little load to double. */
  ghost predicate MayStick<K, V>(h: K -> nat, hp: nat, S: nat, mlf: real, m: map<K, V>) {
    LoadBelow(S, hp, S, mlf) && exists k :: k in m && Crowded(h, hp, S, m.Keys, k)
  }

  lemma StuckByMore<K, V>(h: K -> nat, hp: nat, S: nat, mlf: real, m: map<K, V>, all: map<K, V>, k: K)
    requires Crowded(h, hp, S, m.Keys, k) && LoadBelow(|m|, hp, S, mlf) && m.Keys <= all.Keys && k in all
    ensures MayStick(h, hp, S, mlf, all) && |m| >= S
  {
    CrowdedByMore(h, hp, S, m.Keys, all.Keys, k);
    SubsetSize(Candidates(h, hp, m.Keys - {k}, First(hp, HashOf(h, k))), m.Keys);
    assert |m.Keys| == |m|;
    if !LoadBelow(S, hp, S, mlf) { LoadGrows(S, |m|, hp, S, mlf); }
  }

  /** What rehash(n), or a reserve of what just fits n, says and does when it succeeds:
      it has changed the hashpower from hp0 to hp1, and reports `changed`. */
  ghost predicate Resized<K, V>(h: K -> nat, S: nat, m: map<K, V>, n: nat, hp0: nat, hp1: nat, changed: bool) {
    && changed == (n != hp0) && (n == hp0 ==> hp1 == hp0)
    && Grown(h, S, DEFAULT_MINIMUM_LOAD_FACTOR, m, n, hp1) && !Overfull(h, hp1, S, m.Keys)
  }

  /** Every hashpower that growing from n can lead to has too few slots for some keys. */
  ghost predicate NoRoomFrom<K, V>(h: K -> nat, S: nat, m: map<K, V>, n: nat) {
    forall hp: nat :: Grown(h, S, DEFAULT_MINIMUM_LOAD_FACTOR, m, n, hp) ==> Overfull(h, hp, S, m.Keys)
  }

  /** Growing from n can lead to a table that refuses an element. */
  ghost predicate MayStickFrom<K, V>(h: K -> nat, S: nat, m: map<K, V>, n: nat) {
    exists hp: nat :: Grown(h, S, DEFAULT_MINIMUM_LOAD_FACTOR, m, n, hp)
      && MayStick(h, hp, S, DEFAULT_MINIMUM_LOAD_FACTOR, m)
  }

  /** What was a reason with some of the elements is one with all of them. */
  lemma GrownForMore<K, V>(h: K -> nat, S: nat, mlf: real, m: map<K, V>, all: map<K, V>, k: K, from: nat, to: nat)
    requires GrownFor(h, S, mlf, m, k, from, to) && m.Keys <= all.Keys && k in all
    ensures Grown(h, S, mlf, all, from, to)
  {
    forall hp | from <= hp < to ensures MayGrow(h, hp, S, mlf, all) {
      assert GrowsFor(h, hp, S, mlf, m, k);
      CrowdedByMore(h, hp, S, m.Keys, all.Keys, k);
      SubsetSize(m.Keys, all.Keys);
      assert |m.Keys| == |m| && |all.Keys| == |all|;
      LoadGrows(|m|, |all|, hp, S, mlf);
    }
  }

  /** A refused insert finds both of the key's buckets full. */
  lemma FullMeansCrowded<K, V>(h: K -> nat, hp: nat, S: nat, t: Table<K, V>, m: map<K, V>, pos: map<K, Pos>, k: K)
    requires Holds(h, hp, S, t, m, pos) && k !in m
    requires CuckooSearch.NothingCloser(t, hp, First(hp, HashOf(h, k)), Second(hp, HashOf(h, k)),
      CuckooSearch.MAX_BFS_PATH_LEN)
    ensures Crowded(h, hp, S, m.Keys, k)
  {
    var b1, b2 := First(hp, HashOf(h, k)), Second(hp, HashOf(h, k));
    var none: seq<nat> := [];
    assert CuckooSearch.Walk(t, hp, b1, b2, [b1], none) && CuckooSearch.Walk(t, hp, b1, b2, [b2], none);
    assert Full(t[[b1][|none|]]) && Full(t[[b2][|none|]]);
    FullBucketKeys(h, hp, S, t, m, pos, b1);
    FullBucketKeys(h, hp, S, t, m, pos, b2);
    assert m.Keys - {k} == m.Keys;
  }

  // --------------------------------------------------------- copying a map

  predicate Earlier(p: Pos, i: nat, j: nat) { p.i < i || (p.i == i && p.j < j) }

  /** The part of the map that is stored before slot (i, j). */
  ghost function Before<K, V>(m: map<K, V>, pos: map<K, Pos>, i: nat, j: nat): map<K, V>
    requires pos.Keys == m.Keys
  {
    map k | k in m && Earlier(pos[k], i, j) :: m[k]
  }

  lemma NextSlot<K, V>(h: K -> nat, hp: nat, S: nat, t: Table<K, V>, m: map<K, V>, pos: map<K, Pos>, i: nat, j: nat)
    requires Holds(h, hp, S, t, m, pos) && InRange(t, i, j)
    ensures t[i][j].Free? ==> Before(m, pos, i, j + 1) == Before(m, pos, i, j)
    ensures t[i][j].Item? ==> t[i][j].key in m && t[i][j].key !in Before(m, pos, i, j)
    ensures Before(m, pos, i, j).Keys <= m.Keys
    ensures t[i][j].Item? ==> Before(m, pos, i, j + 1) == Before(m, pos, i, j)[t[i][j].key := t[i][j].value]
  {
    OnlyKeyAt(h, hp, S, t, m, pos, i, j);
    BeforeNext(m, pos, i, j, t[i][j]);
  }

  lemma OnlyKeyAt<K, V>(h: K -> nat, hp: nat, S: nat, t: Table<K, V>, m: map<K, V>, pos: map<K, Pos>, i: nat, j: nat)
    requires Holds(h, hp, S, t, m, pos) && InRange(t, i, j)
    ensures forall k :: k in m ==> (pos[k] == Pos(i, j) <==> t[i][j].Item? && t[i][j].key == k)
    ensures t[i][j].Item? ==> t[i][j].key in m && m[t[i][j].key] == t[i][j].value
  {
    forall k | k in m && pos[k] == Pos(i, j) ensures t[i][j].Item? && t[i][j].key == k {
      StoredAt(h, hp, S, t, m, pos, k);
    }
    if t[i][j].Item? { StoredAt(h, hp, S, t, m, pos, t[i][j].key); }
  }

  lemma BeforeNext<K, V>(m: map<K, V>, pos: map<K, Pos>, i: nat, j: nat, s: Slot<K, V>)
    requires pos.Keys == m.Keys && (s.Item? ==> s.key in m && m[s.key] == s.value)
    requires forall k :: k in m ==> (pos[k] == Pos(i, j) <==> s.Item? && s.key == k)
    ensures s.Free? ==> Before(m, pos, i, j + 1) == Before(m, pos, i, j)
    ensures s.Item? ==>
      s.key !in Before(m, pos, i, j) && Before(m, pos, i, j + 1) == Before(m, pos, i, j)[s.key := s.value]
  {
  }

  lemma NextBucket<K, V>(h: K -> nat, hp: nat, S: nat, t: Table<K, V>, m: map<K, V>, pos: map<K, Pos>, i: nat)
    requires Holds(h, hp, S, t, m, pos)
    ensures Before(m, pos, i, S) == Before(m, pos, i + 1, 0)
  {
    forall k | k in m ensures Stored(h, hp, t, pos[k], k, m[k]) {}
  }

  lemma AllBefore<K, V>(h: K -> nat, hp: nat, S: nat, t: Table<K, V>, m: map<K, V>, pos: map<K, Pos>, copied: map<K, V>)
    requires Holds(h, hp, S, t, m, pos) && copied == Before(m, pos, |t|, 0)
    ensures copied == m
  {
    forall k | k in m ensures Stored(h, hp, t, pos[k], k, m[k]) {}
  }

  // ------------------------------------------------- what moves leave behind

  /** A slot after its key and value have been moved from; `husk` says what a move
      leaves of them. */
  function HuskOf<K, V>(husk: (K, V) -> (K, V), s: Slot<K, V>): Slot<K, V> {
    if s.Item? then Item(s.partial, husk(s.key, s.value).0, husk(s.key, s.value).1) else Free
  }

  /** The table once everything before slot (i, j) has been moved out of it. */
  function Husks<K, V>(husk: (K, V) -> (K, V), t: Table<K, V>, i: nat, j: nat): (r: Table<K, V>)
    ensures |r| == |t| && forall x :: 0 <= x < |t| ==> |r[x]| == |t[x]|
    ensures forall x: nat, y: nat :: InRange(r, x, y) ==>
      r[x][y] == if Earlier(Pos(x, y), i, j) then HuskOf(husk, t[x][y]) else t[x][y]
  {
    seq(|t|, x requires 0 <= x < |t| => seq(|t[x]|, y requires 0 <= y < |t[x]| =>
      if Earlier(Pos(x, y), i, j) then HuskOf(husk, t[x][y]) else t[x][y]))
  }

  lemma HusksNextSlot<K, V>(husk: (K, V) -> (K, V), t: Table<K, V>, i: nat, j: nat)
    requires InRange(t, i, j)
    ensures Husks(husk, t, i, j)[i][j] == t[i][j]
    ensures Husks(husk, t, i, j + 1) == Store(Husks(husk, t, i, j), i, j, HuskOf(husk, t[i][j]))
  {
    assert InRange(Husks(husk, t, i, j), i, j);
    SameTable(Husks(husk, t, i, j + 1), Store(Husks(husk, t, i, j), i, j, HuskOf(husk, t[i][j])));
  }

  lemma HusksNextBucket<K, V>(husk: (K, V) -> (K, V), t: Table<K, V>, i: nat, S: nat)
    requires forall x :: 0 <= x < |t| ==> |t[x]| == S
    ensures Husks(husk, t, i, S) == Husks(husk, t, i + 1, 0)
  {
    SameTable(Husks(husk, t, i, S), Husks(husk, t, i + 1, 0));
  }

  /** With the last slot of a bucket done, the next bucket is next. */
  lemma BucketDone<K, V>(h: K -> nat, hp: nat, S: nat, t: Table<K, V>, m: map<K, V>, pos: map<K, Pos>,
      husk: (K, V) -> (K, V), i: nat, copied: map<K, V>, left: Table<K, V>)
    requires Holds(h, hp, S, t, m, pos) && copied == Before(m, pos, i, S) && left == Husks(husk, t, i, S)
    ensures copied == Before(m, pos, i + 1, 0) && left == Husks(husk, t, i + 1, 0)
  {
    NextBucket(h, hp, S, t, m, pos, i);
    HusksNextBucket(husk, t, i, S);
  }

  /** Nothing done yet. */
  lemma NothingMoved<K, V>(t: Table<K, V>, m: map<K, V>, pos: map<K, Pos>, husk: (K, V) -> (K, V), copied: map<K, V>)
    requires pos.Keys == m.Keys && copied == map[]
    ensures copied == Before(m, pos, 0, 0) && t == Husks(husk, t, 0, 0)
  {
    NoHusks(husk, t);
  }

  lemma NoHusks<K, V>(husk: (K, V) -> (K, V), t: Table<K, V>)
    ensures Husks(husk, t, 0, 0) == t
  {
    SameTable(Husks(husk, t, 0, 0), t);
  }

  /** After an expansion that gave up at slot (i, j), the old table still stores the
      map exactly when moving from the elements before that slot has left each of
      them as it was. */
  lemma FailedExpansionKeepsMapExactlyWhen<K, V>(h: K -> nat, hp: nat, S: nat, t: Table<K, V>, m: map<K, V>,
      pos: map<K, Pos>, husk: (K, V) -> (K, V), i: nat, j: nat)
    requires Holds(h, hp, S, t, m, pos)
    ensures Holds(h, hp, S, Husks(husk, t, i, j), m, pos) <==>
      forall k :: k in m && Earlier(pos[k], i, j) ==> husk(k, m[k]) == (k, m[k])
  {
    var r := Husks(husk, t, i, j);
    if forall k :: k in m && Earlier(pos[k], i, j) ==> husk(k, m[k]) == (k, m[k]) {
      forall x: nat, y: nat | InRange(t, x, y) ensures r[x][y] == t[x][y] {
        assert InRange(r, x, y);
        if t[x][y].Item? { StoredAt(h, hp, S, t, m, pos, t[x][y].key); }
      }
      SameTable(t, r);
    }
    if Holds(h, hp, S, r, m, pos) {
      forall k | k in m && Earlier(pos[k], i, j) ensures husk(k, m[k]) == (k, m[k]) {
        StoredAt(h, hp, S, t, m, pos, k);
        StoredAt(h, hp, S, r, m, pos, k);
        assert InRange(r, pos[k].i, pos[k].j);
      }
    }
  }

  // -------------------------------------------------------------------- map

  class CuckooMap<K(==), V> {
    const hash: K -> nat
    const is_simple: bool                    // small keys are compared directly
    const slot_per_bucket: nat
    const num_threads: nat                   // std::thread::hardware_concurrency()
    const husk: (K, V) -> (K, V)             // what moving from a key and value leaves of them
    const buckets: BucketContainer<K, V>
    var all_locks: seq<seq<int>>             // the element counters of every lock container
    var minimum_load_factor: real
    var maximum_hashpower: Option<nat>       // None: LIBCUCKOO_NO_MAXIMUM_HASHPOWER
    ghost var contents: map<K, V>
    ghost var pos: map<K, Pos>

    /** The buckets hold `contents`, and the current lock container's counters add
        up to its size. */
    ghost predicate Valid()
      reads `all_locks, `contents, `pos, buckets`hashpower, buckets`buckets
    {
      Sized() && Stores()
    }

    ghost predicate Sized()
      reads `all_locks, `contents, buckets`hashpower, buckets`buckets
    {
      && 0 < slot_per_bucket <= 8 && num_threads > 0 && buckets.slot_per_bucket == slot_per_bucket && buckets.Valid()
      && Counted()
    }

    ghost predicate Stores()
      reads `contents, `pos, buckets`hashpower, buckets`buckets
    {
      Holds(hash, buckets.hashpower, slot_per_bucket, buckets.buckets, contents, pos)
    }

    ghost predicate Counted()
      reads `all_locks, `contents, buckets`hashpower
    {
      && all_locks != [] && |Current()| >= Locks.Min(Locks.MAX_NUM_LOCKS, Pow2(buckets.hashpower))
      && Sum(Current()) == |contents|
    }

    /** get_current_locks */
    function Current(): seq<int>
      requires all_locks != []
      reads `all_locks
    {
      all_locks[|all_locks| - 1]
    }

    constructor (n: nat, h: K -> nat, simple: bool, S: nat, threads: nat, left: (K, V) -> (K, V))
      requires 0 < S <= 8 && threads > 0
      ensures Valid() && contents == map[] && fresh(buckets)
      ensures hash == h && slot_per_bucket == S && is_simple == simple && num_threads == threads && husk == left
      ensures JustHolds(buckets.hashpower, n, S)
      ensures minimum_load_factor == DEFAULT_MINIMUM_LOAD_FACTOR && maximum_hashpower == None
    {
      var hp := ReserveCalc(n, S);
      hash, is_simple, slot_per_bucket, num_threads, husk := h, simple, S, threads, left;
      var c := new BucketContainer<K, V>(hp, S);
      buckets := c;
      all_locks := [ZeroCounters(Locks.Min(Locks.MAX_NUM_LOCKS, Pow2(hp)))];
      minimum_load_factor, maximum_hashpower := DEFAULT_MINIMUM_LOAD_FACTOR, None;
      contents, pos := map[], map[];
      new;
      EmptyHolds<K, V>(hash, hp, S);
      SumZero(Current());
    }

    /** size: the sum of the counters is the number of stored keys. */
    method Size() returns (s: int)
      requires Valid()
      ensures s == |contents|
    {
      s := 0;
      var i := 0;
      while i < |Current()|
        invariant 0 <= i <= |Current()| && s + Sum(Current()[i..]) == Sum(Current())
      {
        assert Current()[i..][1..] == Current()[i + 1..];
        s := s + Current()[i];
        i := i + 1;
      }
    }

    function Capacity(): nat
      reads buckets`hashpower
    {
      Pow2(buckets.hashpower) * slot_per_bucket
    }

    method LoadFactorBelow(mlf: real) returns (below: bool)
      requires Valid()
      ensures below <==> LoadBelow(|contents|, buckets.hashpower, slot_per_bucket, mlf)
    {
      MulMono(1, slot_per_bucket, Pow2(buckets.hashpower));
      var s := Size();
      below := s as real / Capacity() as real < mlf;
    }

    // ------------------------------------------------------------ one bucket

    /** add_to_bucket */
    method AddToBucket(ind: nat, slot: nat, key: K, val: V)
      requires Valid() && key !in contents && InRange(buckets.buckets, ind, slot) && buckets.buckets[ind][slot].Free?
      requires IsCandidate(buckets.hashpower, HashOf(hash, key), ind)
      modifies this`all_locks, this`contents, this`pos, buckets`buckets
      ensures Valid() && contents == old(contents)[key := val]
    {
      ghost var t, m, p := buckets.buckets, contents, pos;
      InsertKeeps(hash, buckets.hashpower, slot_per_bucket, t, m, p, ind, slot, key, val);
      buckets.SetKV(ind, slot, PartialKey(HashOf(hash, key)), key, val);
      Count(ind, 1);
      contents, pos := m[key := val], p[key := Pos(ind, slot)];
      OneMore(m, key, val);
    }

    /** One stripe's counter. */
    method Count(ind: nat, delta: int)
      requires all_locks != [] && |Current()| >= Locks.Min(Locks.MAX_NUM_LOCKS, Pow2(buckets.hashpower))
        && ind < Pow2(buckets.hashpower)
      modifies this`all_locks
      ensures all_locks != [] && |Current()| == |old(Current())| && Sum(Current()) == old(Sum(Current())) + delta
    {
      Locks.StripeInRange(ind, buckets.hashpower);
      var l := Locks.LockInd(ind);
      SumUpdate(Current(), l, Current()[l] + delta);
      all_locks := all_locks[|all_locks| - 1 := Current()[l := Current()[l] + delta]];
    }

    /** del_from_bucket */
    method DelFromBucket(ind: nat, slot: nat, ghost key: K)
      requires Valid() && key in contents && pos[key] == Pos(ind, slot)
      modifies this`all_locks, this`contents, this`pos, buckets`buckets
      ensures Valid() && contents == old(contents) - {key}
    {
      ghost var t, m, p := buckets.buckets, contents, pos;
      assert Stored(hash, buckets.hashpower, t, p[key], key, m[key]);
      EraseKeeps(hash, buckets.hashpower, slot_per_bucket, t, m, p, key);
      buckets.EraseKV(ind, slot);
      Count(ind, -1);
      contents, pos := m - {key}, p - {key};
      OneLess(m, key);
    }

    /** The functor's assignment to a stored value. */
    method Assign(ind: nat, slot: nat, key: K, val: V)
      requires Valid() && key in contents && pos[key] == Pos(ind, slot)
      modifies this`contents, buckets`buckets
      ensures Valid() && contents == old(contents)[key := val] && pos == old(pos)
    {
      ghost var t, m := buckets.buckets, contents;
      assert Stored(hash, buckets.hashpower, t, pos[key], key, m[key]);
      AssignKeeps(hash, buckets.hashpower, slot_per_bucket, t, m, pos, key, val);
      buckets.buckets := Store(buckets.buckets, ind, slot, Item(PartialKey(HashOf(hash, key)), key, val));
      contents := m[key := val];
      SameSize(m, key, val);
    }

    /** snapshot_and_lock_two and cuckoo_find. */
    method Lookup(key: K) returns (found: bool, index: nat, slot: nat)
      requires Valid()
      ensures found <==> key in contents
      ensures found ==> pos[key] == Pos(index, slot) && InRange(buckets.buckets, index, slot)
      ensures found ==> buckets.buckets[index][slot] == Item(PartialKey(HashOf(hash, key)), key, contents[key])
    {
      var hp, hv := buckets.hashpower, HashOf(hash, key);
      var i1 := IndexHash(hp, hv);
      var i2 := AltIndex(hp, PartialKey(hv), i1);
      InTable(hp, hv, PartialKey(hv), i1);
      found, index, slot := CuckooFind(buckets.buckets, key, PartialKey(hv), i1, i2, is_simple,
        hash, hp, slot_per_bucket, contents, pos);
    }

    // ------------------------------------------------ find, update and erase

    /** find_fn, find and contains */
    method Find(key: K) returns (r: Option<V>)
      requires Valid()
      ensures r == if key in contents then Some(contents[key]) else None
    {
      var found, index, slot := Lookup(key);
      r := if found then Some(buckets.buckets[index][slot].value) else None;
    }

    /** update_fn; update passes a constant function. */
    method UpdateFn(key: K, fn: V -> V) returns (found: bool)
      requires Valid()
      modifies this`contents, buckets`buckets
      ensures Valid() && found == (key in old(contents))
      ensures contents == if found then old(contents)[key := fn(old(contents)[key])] else old(contents)
    {
      var index, slot;
      found, index, slot := Lookup(key);
      if found { Assign(index, slot, key, fn(buckets.buckets[index][slot].value)); }
    }

    /** What a functor given to erase_fn or uprase_fn leaves of an element. */
    static function Fate(m: map<K, V>, key: K, fn: V -> (V, bool)): map<K, V>
      requires key in m
    {
      if fn(m[key]).1 then m - {key} else m[key := fn(m[key]).0]
    }

    /** Apply such a functor to a stored element. */
    method ApplyFn(index: nat, slot: nat, key: K, fn: V -> (V, bool))
      requires Valid() && key in contents && pos[key] == Pos(index, slot)
      modifies this`all_locks, this`contents, this`pos, buckets`buckets
      ensures Valid() && contents == Fate(old(contents), key, fn)
    {
      ghost var m := contents;
      assert Stored(hash, buckets.hashpower, buckets.buckets, pos[key], key, m[key]);
      var (v, gone) := fn(buckets.buckets[index][slot].value);
      Assign(index, slot, key, v);
      if gone {
        DelFromBucket(index, slot, key);
        EraseAfterUpdate(m, key, v);
      }
    }

    /** erase_fn; erase passes a function that always says true. */
    method EraseFn(key: K, fn: V -> (V, bool)) returns (found: bool)
      requires Valid()
      modifies this`all_locks, this`contents, this`pos, buckets`buckets
      ensures Valid() && found == (key in old(contents))
      ensures contents == if found then Fate(old(contents), key, fn) else old(contents)
    {
      var index, slot;
      found, index, slot := Lookup(key);
      if found { ApplyFn(index, slot, key, fn); }
    }

    /** cuckoo_clear: the current counters become zero. */
    method Clear()
      requires Valid()
      modifies this`all_locks, this`contents, this`pos, buckets`buckets
      ensures Valid() && contents == map[]
    {
      buckets.Clear();
      all_locks := all_locks[|all_locks| - 1 := ZeroCounters(|Current()|)];
      contents, pos := map[], map[];
      EmptyHolds<K, V>(hash, buckets.hashpower, slot_per_bucket);
      SumZero(Current());
    }

    // ---------------------------------------------------------- cuckoo_insert

    /** cuckoo_insert: a place for a new key, after evictions if need be; or the
        key's place if it is there already; or the table is full, meaning that no
        room can be reached with fewer than MAX_BFS_PATH_LEN evictions. */
    method CuckooInsert(key: K) returns (status: Status, index: nat, slot: nat)
      requires Valid()
      modifies this`pos, buckets`buckets
      ensures Valid() && (status.Duplicated? <==> key in contents)
      ensures status.Duplicated? ==> pos[key] == Pos(index, slot)
      ensures status.Ok? ==> InRange(buckets.buckets, index, slot) && buckets.buckets[index][slot].Free?
      ensures status.Ok? ==> IsCandidate(buckets.hashpower, HashOf(hash, key), index)
      ensures status.TableFull? ==> buckets.buckets == old(buckets.buckets)
      ensures status.TableFull? ==> var hp, hv := buckets.hashpower, HashOf(hash, key);
        CuckooSearch.NothingCloser(buckets.buckets, hp, First(hp, hv), Second(hp, hv), CuckooSearch.MAX_BFS_PATH_LEN)
    {
      var hp, hv := buckets.hashpower, HashOf(hash, key);
      var i1 := IndexHash(hp, hv);
      var i2 := AltIndex(hp, PartialKey(hv), i1);
      InTable(hp, hv, PartialKey(hv), i1);
      status, index, slot := InsertInPlace(key, hp, hv, i1, i2);
      if status.TableFull? {
        var done, b, sl;
        ghost var tries;
        done, b, sl, pos, tries := CuckooPath.RunCuckoo(hash, buckets, i1, i2, contents, pos);
        if done {
          var found, f_index, f_slot := Lookup(key);
          if found { return Duplicated, f_index, f_slot; }
          return Ok, b, sl;
        }
      }
    }

    /** The part of cuckoo_insert that needs no eviction. */
    method InsertInPlace(key: K, hp: nat, hv: nat, i1: nat, i2: nat) returns (status: Status, index: nat, slot: nat)
      requires Valid() && hp == buckets.hashpower && hv == HashOf(hash, key) && i1 == First(hp, hv)
        && i2 == Second(hp, hv)
      requires i1 < |buckets.buckets| && i2 < |buckets.buckets|
      ensures status.Duplicated? <==> key in contents
      ensures status.Duplicated? ==> pos[key] == Pos(index, slot)
      ensures status.Ok? ==>
        InRange(buckets.buckets, index, slot) && buckets.buckets[index][slot].Free? && IsCandidate(hp, hv, index)
    {
      ghost var t := buckets.buckets;
      if key in contents { KeyIsInCandidate(hash, hp, slot_per_bucket, t, contents, pos, key); }
      var insertable, res1 := TryFindInsert(buckets.buckets[i1], PartialKey(hv), key, is_simple);
      forall j: nat | j < |t[i1]| ensures Matches(t[i1][j], PartialKey(hv), key, is_simple) <==>
        key in contents && pos[key] == Pos(i1, j) {
        MatchIsKey(hash, hp, slot_per_bucket, t, contents, pos, i1, j, key, is_simple);
      }
      if !insertable { return Duplicated, i1, res1; }
      var res2;
      insertable, res2 := TryFindInsert(buckets.buckets[i2], PartialKey(hv), key, is_simple);
      forall j: nat | j < |t[i2]| ensures Matches(t[i2][j], PartialKey(hv), key, is_simple) <==>
        key in contents && pos[key] == Pos(i2, j) {
        MatchIsKey(hash, hp, slot_per_bucket, t, contents, pos, i2, j, key, is_simple);
      }
      if !insertable { return Duplicated, i2, res2; }
      if res1 != -1 { return Ok, i1, res1; }
      if res2 != -1 { return Ok, i2, res2; }
      status, index, slot := TableFull, 0, 0;
    }

    // -------------------------------------------------------------- expansion

    /** No automatic expansion starts at this hashpower or above. */
    ghost function GrowthLimit(): int
      reads `contents, `minimum_load_factor, `maximum_hashpower
    {
      if maximum_hashpower.Some? then maximum_hashpower.value
      else if minimum_load_factor > 0.0 then LoadLimit(|contents|, minimum_load_factor)
      else 0
    }

    /** The limits that make the insert loop end. */
    ghost predicate Limited()
      reads `minimum_load_factor, `maximum_hashpower
    {
      minimum_load_factor > 0.0 || maximum_hashpower.Some?
    }

    ghost predicate OverMaximum(new_hp: nat)
      reads `maximum_hashpower
    {
      maximum_hashpower.Some? && new_hp > maximum_hashpower.value
    }

    ghost predicate Underloaded()
      reads `contents, `minimum_load_factor, buckets`hashpower
    {
      LoadBelow(|contents|, buckets.hashpower, slot_per_bucket, minimum_load_factor)
    }

    /** Why an expansion to new_hp is refused. */
    ghost predicate Refused(e: Error, new_hp: nat, auto_resize: bool)
      reads `contents, `minimum_load_factor, `maximum_hashpower, buckets`hashpower
    {
      match e
      case MaximumHashpowerExceeded(hp) => hp == new_hp && OverMaximum(new_hp)
      case LoadFactorTooLow(mlf) => auto_resize && mlf == minimum_load_factor && Underloaded()
    }

    /** check_resize_validity; Success(false) is failure_under_expansion. */
    method CheckResizeValidity(orig_hp: nat, new_hp: nat, auto_resize: bool) returns (r: Result<bool>)
      requires Valid()
      ensures r.Failure? <==> OverMaximum(new_hp) || (auto_resize && Underloaded())
      ensures r.Failure? ==> Refused(r.error, new_hp, auto_resize)
      ensures r.Success? ==> r.value == (buckets.hashpower == orig_hp)
    {
      if maximum_hashpower.Some? && new_hp > maximum_hashpower.value {
        return Failure(MaximumHashpowerExceeded(new_hp));
      }
      var below := LoadFactorBelow(minimum_load_factor);
      if auto_resize && below { return Failure(LoadFactorTooLow(minimum_load_factor)); }
      r := Success(buckets.hashpower == orig_hp);
    }

    /** maybe_resize_locks: the counters are copied to a larger lock container. */
    method MaybeResizeLocks(new_bucket_count: nat)
      requires all_locks != []
      modifies this`all_locks
      ensures all_locks != [] && Sum(Current()) == old(Sum(Current()))
      ensures |Current()| >= Locks.Min(Locks.MAX_NUM_LOCKS, new_bucket_count) && |Current()| >= old(|Current()|)
    {
      if |Current()| < Locks.MAX_NUM_LOCKS && |Current()| < new_bucket_count {
        var more := ZeroCounters(Locks.Min(Locks.MAX_NUM_LOCKS, new_bucket_count) - |Current()|);
        SumAppend(Current(), more);
        SumZero(more);
        all_locks := all_locks + [Current() + more];
      }
    }

    /** The end of both kinds of expansion: new buckets that store the same map
        take the place of the old ones, once there are locks enough for them. */
    method Adopt(c: BucketContainer<K, V>, ghost pos': map<K, Pos>)
      requires Sized() && c != buckets && c.Valid() && c.slot_per_bucket == slot_per_bucket
      requires Holds(hash, c.hashpower, slot_per_bucket, c.buckets, contents, pos')
      modifies this`all_locks, this`pos, buckets, c
      ensures Valid() && buckets.hashpower == old(c.hashpower)
    {
      MaybeResizeLocks(Pow2(c.hashpower));
      buckets.Swap(c);
      pos := pos';
    }

    /** cuckoo_fast_double, for key and value types that move without throwing. */
    method FastDouble(current_hp: nat) returns (r: Result<bool>)
      requires Valid()
      modifies this`all_locks, this`pos, buckets
      ensures Valid()
      ensures r.Success? ==> r.value == (old(buckets.hashpower) == current_hp) && !old(Underloaded())
      ensures r.Success? && r.value ==> buckets.hashpower == current_hp + 1
      ensures r.Success? && r.value && Limited() ==> buckets.hashpower <= GrowthLimit()
      ensures r.Failure? || !r.value ==>
        buckets.hashpower == old(buckets.hashpower) && buckets.buckets == old(buckets.buckets) && pos == old(pos)
      ensures r.Failure? ==> Refused(r.error, current_hp + 1, true)
    {
      r := CheckAutomatic(current_hp);
      if r.Success? && r.value { Double(); }
    }

    /** The doubling itself. */
    method Double()
      requires Valid()
      modifies this`all_locks, this`pos, buckets
      ensures Valid() && buckets.hashpower == old(buckets.hashpower) + 1
    {
      var hp := buckets.hashpower;
      var new_buckets := new BucketContainer<K, V>(hp + 1, slot_per_bucket);
      CuckooDouble.MoveAll(hash, buckets, new_buckets, num_threads);
      ghost var pos' := CuckooDouble.DoublingKeepsMap(hash, hp, slot_per_bucket, buckets.buckets, contents, pos);
      Adopt(new_buckets, pos');
    }

    /** check_resize_validity of an automatic expansion: one that it lets through
        starts below the limit. */
    method CheckAutomatic(current_hp: nat) returns (r: Result<bool>)
      requires Valid()
      ensures r.Failure? ==> Refused(r.error, current_hp + 1, true)
      ensures r.Success? ==> r.value == (buckets.hashpower == current_hp) && !Underloaded()
      ensures r.Success? && r.value && Limited() ==> buckets.hashpower < GrowthLimit()
    {
      r := CheckResizeValidity(current_hp, current_hp + 1, true);
      if r.Success? && r.value && Limited() { GrowthIsBounded(); }
    }

    /** An expansion that the limits allow starts below the limit. */
    lemma GrowthIsBounded()
      requires Valid() && Limited() && !OverMaximum(buckets.hashpower + 1) && !Underloaded()
      ensures buckets.hashpower < GrowthLimit()
    {
      if maximum_hashpower.None? {
        MulMono(1, slot_per_bucket, Pow2(buckets.hashpower));
        LoadBoundsHashpower(buckets.hashpower, slot_per_bucket, |contents|, minimum_load_factor);
      }
    }

    /** The outcome of a finished insert attempt. */
    ghost predicate Placed(r: Result<(Status, nat, nat)>, key: K)
      requires Stores()
      reads `contents, `pos, `minimum_load_factor, `maximum_hashpower, buckets`hashpower, buckets`buckets
    {
      match r
      case Failure(e) => key !in contents && Refused(e, buckets.hashpower + 1, true)
        && Crowded(hash, buckets.hashpower, slot_per_bucket, contents.Keys, key)
      case Success(p) =>
        if key in contents then p.0 == Duplicated && pos[key] == Pos(p.1, p.2)
        else p.0 == Ok && RoomFor(key, p.1, p.2)
    }

    ghost predicate RoomFor(key: K, index: nat, slot: nat)
      reads buckets`hashpower, buckets`buckets
    {
      && InRange(buckets.buckets, index, slot) && buckets.buckets[index][slot].Free?
      && IsCandidate(buckets.hashpower, HashOf(hash, key), index)
    }

    /** The table is full: it doubles, or the limits refuse. */
    method DoubleOrThrow(key: K) returns (thrown: bool, r: Result<(Status, nat, nat)>)
      requires Valid() && key !in contents
      modifies this`all_locks, this`pos, buckets
      ensures Valid()
      ensures thrown ==> buckets.hashpower == old(buckets.hashpower)
      ensures thrown ==> r.Failure? && Refused(r.error, buckets.hashpower + 1, true)
      ensures !thrown ==> buckets.hashpower == old(buckets.hashpower) + 1 && !old(Underloaded())
      ensures !thrown && Limited() ==> buckets.hashpower <= GrowthLimit()
    {
      var hp := buckets.hashpower;
      var d := FastDouble(hp);
      thrown := d.Failure?;
      r := if d.Failure? then Failure(d.error) else Success((TableFull, 0, 0));
    }

    /** One turn of cuckoo_insert_loop: it is done, or the table has doubled, having
        been full where the key belongs. */
    method InsertOrDouble(key: K) returns (done: bool, r: Result<(Status, nat, nat)>)
      requires Valid()
      modifies this`all_locks, this`pos, buckets
      ensures Valid() && (done ==> Placed(r, key))
      ensures buckets.hashpower == if done then old(buckets.hashpower) else old(buckets.hashpower) + 1
      ensures !done ==> GrowsFor(hash, old(buckets.hashpower), slot_per_bucket, minimum_load_factor, contents, key)
      ensures !done && Limited() ==> old(buckets.hashpower) < GrowthLimit()
    {
      var status, index, slot := CuckooInsert(key);
      done, r := true, Success((status, index, slot));
      if status.TableFull? {
        FullMeansCrowded(hash, buckets.hashpower, slot_per_bucket, buckets.buckets, contents, pos, key);
        done, r := DoubleOrThrow(key);
      }
    }

    /** cuckoo_insert_loop: it ends, with a place for the key, or its place, or an
        exception, and in each case stores what it stored before. */
    method CuckooInsertLoop(key: K) returns (r: Result<(Status, nat, nat)>)
      requires Valid() && Limited()
      modifies this`all_locks, this`pos, buckets
      ensures Valid() && Placed(r, key)
      ensures GrownFor(hash, slot_per_bucket, minimum_load_factor, contents, key,
        old(buckets.hashpower), buckets.hashpower)
    {
      while true
        invariant Valid()
        invariant GrownFor(hash, slot_per_bucket, minimum_load_factor, contents, key,
          old(buckets.hashpower), buckets.hashpower)
        decreases GrowthLimit() - buckets.hashpower
      {
        var done;
        done, r := InsertOrDouble(key);
        if done { return; }
      }
    }

    /** uprase_fn: apply fn to the element of an existing key, or add the pair. */
    method UpraseFn(key: K, fn: V -> (V, bool), val: V) returns (r: Result<bool>)
      requires Valid() && Limited()
      modifies this`all_locks, this`contents, this`pos, buckets
      ensures Valid()
      ensures GrownFor(hash, slot_per_bucket, minimum_load_factor, old(contents), key,
        old(buckets.hashpower), buckets.hashpower)
      ensures r.Success? ==> r.value == (key !in old(contents))
      ensures r.Success? ==> contents == if r.value then old(contents)[key := val] else Fate(old(contents), key, fn)
      ensures r.Failure? ==>
        contents == old(contents) && key !in contents && Refused(r.error, buckets.hashpower + 1, true)
        && Crowded(hash, buckets.hashpower, slot_per_bucket, contents.Keys, key)
    {
      var p := CuckooInsertLoop(key);
      if p.Failure? { return Failure(p.error); }
      var (status, index, slot) := p.value;
      if status.Ok? {
        AddToBucket(index, slot, key, val);
      } else {
        ApplyFn(index, slot, key, fn);
      }
      r := Success(status.Ok?);
    }

    /** upsert: uprase_fn with a functor that never erases. */
    method Upsert(key: K, fn: V -> V, val: V) returns (r: Result<bool>)
      requires Valid() && Limited()
      modifies this`all_locks, this`contents, this`pos, buckets
      ensures Valid()
      ensures GrownFor(hash, slot_per_bucket, minimum_load_factor, old(contents), key,
        old(buckets.hashpower), buckets.hashpower)
      ensures r.Success? ==> r.value == (key !in old(contents))
      ensures r.Success? ==> contents == old(contents)[key := if r.value then val else fn(old(contents)[key])]
      ensures r.Failure? ==>
        contents == old(contents) && key !in contents && Refused(r.error, buckets.hashpower + 1, true)
        && Crowded(hash, buckets.hashpower, slot_per_bucket, contents.Keys, key)
    {
      r := UpraseFn(key, v => (fn(v), false), val);
    }

    /** insert: an existing value stays. */
    method Insert(key: K, val: V) returns (r: Result<bool>)
      requires Valid() && Limited()
      modifies this`all_locks, this`contents, this`pos, buckets
      ensures Valid()
      ensures GrownFor(hash, slot_per_bucket, minimum_load_factor, old(contents), key,
        old(buckets.hashpower), buckets.hashpower)
      ensures r.Success? ==> r.value == (key !in old(contents))
      ensures r.Success? ==> contents == if key in old(contents) then old(contents) else old(contents)[key := val]
      ensures r.Failure? ==>
        contents == old(contents) && key !in contents && Refused(r.error, buckets.hashpower + 1, true)
        && Crowded(hash, buckets.hashpower, slot_per_bucket, contents.Keys, key)
    {
      ghost var m := contents;
      r := Upsert(key, v => v, val);
      assert key in m ==> m[key := m[key]] == m;
    }

    // ---------------------------------------------------- rehash and reserve

    /** cuckoo_expand_simple, manual resize: the elements are moved to a new map of
        the given hashpower.  If that fails part way, at slot (i, j), the elements
        before it, of which there are some, have been moved out of this map. */
    method ExpandSimple(new_hp: nat) returns (r: Result<bool>, ghost i: nat, ghost j: nat)
      requires Valid()
      modifies this`all_locks, this`pos, buckets
      ensures r.Success? ==> Valid() && r.value && !OverMaximum(new_hp)
      ensures r.Success? ==> !Overfull(hash, buckets.hashpower, slot_per_bucket, contents.Keys)
      ensures r.Success? ==>
        Grown(hash, slot_per_bucket, DEFAULT_MINIMUM_LOAD_FACTOR, contents, new_hp, buckets.hashpower)
      ensures r.Failure? ==>
        buckets.hashpower == old(buckets.hashpower) && pos == old(pos) && all_locks == old(all_locks)
      ensures r.Failure? ==> buckets.buckets == Husks(husk, old(buckets.buckets), i, j)
      ensures r.Failure? && OverMaximum(new_hp) ==> r.error == MaximumHashpowerExceeded(new_hp) && i == j == 0
      ensures r.Failure? && !OverMaximum(new_hp) ==> r.error == LoadFactorTooLow(DEFAULT_MINIMUM_LOAD_FACTOR)
      ensures r.Failure? && !OverMaximum(new_hp) ==>
        SomeBefore(i, j) && MayStickFrom(hash, slot_per_bucket, contents, new_hp)
    {
      i, j := 0, 0;
      NoHusks(husk, buckets.buckets);
      r := CheckResizeValidity(buckets.hashpower, new_hp, false);
      if r.Success? {
        var new_map := new CuckooMap<K, V>(Pow2(new_hp) * slot_per_bucket, hash, is_simple, slot_per_bucket,
          num_threads, husk);
        NewMapFits(new_map.buckets.hashpower, new_hp, slot_per_bucket);
        var e;
        e, i, j := MoveInto(new_map);
        if e.Some? { return Failure(e.value), i, j; }
        Adopt(new_map.buckets, new_map.pos);
      }
    }

    /** Some element is stored before slot (i, j). */
    ghost predicate SomeBefore(i: nat, j: nat)
      reads `contents, `pos
    {
      exists k :: k in contents && k in pos && Earlier(pos[k], i, j)
    }

    /** A map to copy into: empty limits but the default one, nothing shared. */
    ghost predicate Target(new_map: CuckooMap<K, V>)
      reads new_map, new_map.buckets`hashpower, new_map.buckets`buckets
    {
      && new_map.Valid() && new_map != this && new_map.buckets != buckets && new_map.hash == hash
        && new_map.husk == husk
      && new_map.slot_per_bucket == slot_per_bucket && new_map.minimum_load_factor > 0.0
        && new_map.maximum_hashpower == None
    }

    /** What was stored before slot (i, j) is in the new map, moved out of this one's
        table t. */
    ghost predicate Moved(new_map: CuckooMap<K, V>, t: Table<K, V>, i: nat, j: nat)
      requires pos.Keys == contents.Keys
      reads `contents, `pos, buckets`buckets, new_map`contents
    {
      new_map.contents == Before(contents, pos, i, j) && buckets.buckets == Husks(husk, t, i, j)
    }

    /** The new map has grown for elements of this one only. */
    ghost predicate GrownFrom(new_map: CuckooMap<K, V>, hp: nat)
      reads `contents, new_map`minimum_load_factor, new_map.buckets`hashpower
    {
      Grown(hash, slot_per_bucket, new_map.minimum_load_factor, contents, hp, new_map.buckets.hashpower)
    }

    /** The new map has refused an element: it was full where that belongs. */
    ghost predicate GaveUp(new_map: CuckooMap<K, V>, e: Option<Error>)
      reads `contents, new_map`minimum_load_factor, new_map`contents, new_map.buckets`hashpower
    {
      && e == Some(LoadFactorTooLow(new_map.minimum_load_factor)) && new_map.contents != map[]
      && MayStick(hash, new_map.buckets.hashpower, slot_per_bucket, new_map.minimum_load_factor, contents)
    }

    /** The loops of cuckoo_expand_simple. */
    method MoveInto(new_map: CuckooMap<K, V>) returns (e: Option<Error>, ghost i': nat, ghost j': nat)
      requires Valid() && Target(new_map) && new_map.contents == map[]
      modifies new_map`all_locks, new_map`contents, new_map`pos, new_map.buckets, buckets`buckets
      ensures Target(new_map) && GrownFrom(new_map, old(new_map.buckets.hashpower))
      ensures buckets.buckets == Husks(husk, old(buckets.buckets), i', j')
      ensures e.None? ==> new_map.contents == contents
      ensures e.None? ==> !Overfull(hash, new_map.buckets.hashpower, slot_per_bucket, contents.Keys)
      ensures e.Some? ==> GaveUp(new_map, e) && SomeBefore(i', j')
    {
      NothingMoved(buckets.buckets, contents, pos, husk, new_map.contents);
      ghost var t := buckets.buckets;
      e, i', j' := MoveBuckets(new_map, t);
      if e.None? {
        AllBefore(hash, buckets.hashpower, slot_per_bucket, t, contents, pos, new_map.contents);
        StoredIsNotOverfull(hash, new_map.buckets.hashpower, slot_per_bucket, new_map.buckets.buckets, contents,
          new_map.pos);
      } else {
        ghost var k :| k in new_map.contents;
      }
    }

    method MoveBuckets(new_map: CuckooMap<K, V>, ghost t: Table<K, V>)
        returns (e: Option<Error>, ghost i': nat, ghost j': nat)
      requires Holds(hash, buckets.hashpower, slot_per_bucket, t, contents, pos) && Target(new_map)
      requires Moved(new_map, t, 0, 0)
      modifies new_map`all_locks, new_map`contents, new_map`pos, new_map.buckets, buckets`buckets
      ensures Target(new_map) && Moved(new_map, t, i', j')
      ensures GrownFrom(new_map, old(new_map.buckets.hashpower))
      ensures if e.None? then i' == |t| && j' == 0 else GaveUp(new_map, e)
    {
      e, i', j' := None, 0, 0;
      var i, n := 0, |buckets.buckets|;
      while i < n && e.None?
        invariant i <= n == |t| && Target(new_map) && Moved(new_map, t, i', j')
        invariant GrownFrom(new_map, old(new_map.buckets.hashpower))
        invariant if e.None? then i' == i && j' == 0 else GaveUp(new_map, e)
      {
        e, i', j' := MoveBucket(i, new_map, t);
        i := i + 1;
      }
    }

    method MoveBucket(i: nat, new_map: CuckooMap<K, V>, ghost t: Table<K, V>)
        returns (e: Option<Error>, ghost i': nat, ghost j': nat)
      requires Holds(hash, buckets.hashpower, slot_per_bucket, t, contents, pos) && Target(new_map) && i < |t|
      requires Moved(new_map, t, i, 0)
      modifies new_map`all_locks, new_map`contents, new_map`pos, new_map.buckets, buckets`buckets
      ensures Target(new_map) && Moved(new_map, t, i', j')
      ensures GrownFrom(new_map, old(new_map.buckets.hashpower))
      ensures if e.None? then i' == i + 1 && j' == 0 else GaveUp(new_map, e)
    {
      i' := i;
      e, j' := MoveSlots(i, new_map, t);
      if e.None? {
        BucketDone(hash, buckets.hashpower, slot_per_bucket, t, contents, pos, husk, i, new_map.contents,
          buckets.buckets);
        i', j' := i + 1, 0;
      }
    }

    method MoveSlots(i: nat, new_map: CuckooMap<K, V>, ghost t: Table<K, V>) returns (e: Option<Error>, ghost j': nat)
      requires Holds(hash, buckets.hashpower, slot_per_bucket, t, contents, pos) && Target(new_map) && i < |t|
      requires Moved(new_map, t, i, 0)
      modifies new_map`all_locks, new_map`contents, new_map`pos, new_map.buckets, buckets`buckets
      ensures Target(new_map) && Moved(new_map, t, i, j')
      ensures GrownFrom(new_map, old(new_map.buckets.hashpower))
      ensures if e.None? then j' == slot_per_bucket else GaveUp(new_map, e)
    {
      e, j' := None, 0;
      var j := 0;
      while j < slot_per_bucket && e.None?
        invariant j <= slot_per_bucket && Target(new_map) && Moved(new_map, t, i, j')
        invariant GrownFrom(new_map, old(new_map.buckets.hashpower))
        invariant if e.None? then j' == j else GaveUp(new_map, e)
      {
        e, j' := MoveSlot(i, j, new_map, t);
        j := j + 1;
      }
    }

    /** The element is moved only once the new map has a place for it. */
    method MoveSlot(i: nat, j: nat, new_map: CuckooMap<K, V>, ghost t: Table<K, V>)
        returns (e: Option<Error>, ghost j': nat)
      requires Holds(hash, buckets.hashpower, slot_per_bucket, t, contents, pos) && Target(new_map) && InRange(t, i, j)
      requires Moved(new_map, t, i, j)
      modifies new_map`all_locks, new_map`contents, new_map`pos, new_map.buckets, buckets`buckets
      ensures Target(new_map) && Moved(new_map, t, i, j')
      ensures GrownFrom(new_map, old(new_map.buckets.hashpower))
      ensures if e.None? then j' == j + 1 else j' == j && GaveUp(new_map, e)
    {
      e, j' := None, j;
      assert InRange(buckets.buckets, i, j) && buckets.buckets[i][j] == t[i][j];
      NextSlot(hash, buckets.hashpower, slot_per_bucket, t, contents, pos, i, j);
      if buckets.buckets[i][j].Item? {
        e := InsertMoved(new_map, buckets.buckets[i][j].key, buckets.buckets[i][j].value);
      }
      if e.None? {
        LeaveHusk(new_map, i, j, t);
        j' := j + 1;
      }
    }

    /** What the move out of slot (i, j) leaves there. */
    method LeaveHusk(new_map: CuckooMap<K, V>, i: nat, j: nat, ghost t: Table<K, V>)
      requires Target(new_map) && InRange(t, i, j) && buckets.buckets == Husks(husk, t, i, j)
      requires pos.Keys == contents.Keys && new_map.contents == Before(contents, pos, i, j + 1)
      modifies buckets`buckets
      ensures Target(new_map) && Moved(new_map, t, i, j + 1)
    {
      HusksNextSlot(husk, t, i, j);
      buckets.buckets := Store(buckets.buckets, i, j, HuskOf(husk, buckets.buckets[i][j]));
    }

    /** new_map.insert of one of this map's elements. */
    method InsertMoved(new_map: CuckooMap<K, V>, key: K, val: V) returns (e: Option<Error>)
      requires Target(new_map) && key in contents && key !in new_map.contents && new_map.contents.Keys <= contents.Keys
      modifies new_map`all_locks, new_map`contents, new_map`pos, new_map.buckets
      ensures Target(new_map) && GrownFrom(new_map, old(new_map.buckets.hashpower))
      ensures e.None? ==> new_map.contents == old(new_map.contents)[key := val]
      ensures e.Some? ==> new_map.contents == old(new_map.contents) && GaveUp(new_map, e)
    {
      ghost var m, from := new_map.contents, new_map.buckets.hashpower;
      var r := new_map.Insert(key, val);
      GrownForMore(hash, slot_per_bucket, new_map.minimum_load_factor, m, contents, key, from,
        new_map.buckets.hashpower);
      e := if r.Failure? then Some(r.error) else None;
      if e.Some? {
        StuckByMore(hash, new_map.buckets.hashpower, slot_per_bucket, new_map.minimum_load_factor, m, contents, key);
      }
    }

    /** Moving from a stored element leaves it as it is. */
    ghost predicate MovesAreCopies()
      reads `contents
    {
      forall k :: k in contents ==> husk(k, contents[k]) == (k, contents[k])
    }

    /** Moving from any stored element changes it. */
    ghost predicate MovesChange()
      reads `contents
    {
      forall k :: k in contents ==> husk(k, contents[k]) != (k, contents[k])
    }

    /** cuckoo_rehash: the map stays what it was, unless it fails after elements that
        do not survive being moved from have been moved. */
    method Rehash(n: nat) returns (r: Result<bool>, ghost i: nat, ghost j: nat)
      requires Valid()
      modifies this`all_locks, this`pos, buckets
      ensures r.Success? ==> Valid()
      ensures r.Success? ==>
        Resized(hash, slot_per_bucket, contents, n, old(buckets.hashpower), buckets.hashpower, r.value)
      ensures r.Success? && !r.value ==> buckets.hashpower == n && buckets.buckets == old(buckets.buckets)
      ensures r.Failure? ==> n != buckets.hashpower && buckets.buckets == Husks(husk, old(buckets.buckets), i, j)
      ensures old(MovesAreCopies()) ==> Valid()
      ensures OverMaximum(n) && n != old(buckets.hashpower) ==> r == Failure(MaximumHashpowerExceeded(n)) && Valid()
      ensures n != old(buckets.hashpower) && NoRoomFrom(hash, slot_per_bucket, contents, n) ==> r.Failure?
      ensures r.Failure? && !OverMaximum(n) ==> MayStickFrom(hash, slot_per_bucket, contents, n)
      ensures r.Failure? && !OverMaximum(n) && MovesChange() ==> !Stores()
    {
      ghost var t, p := buckets.buckets, pos;
      i, j := 0, 0;
      StoredIsNotOverfull(hash, buckets.hashpower, slot_per_bucket, buckets.buckets, contents, pos);
      if n == buckets.hashpower { return Success(false), 0, 0; }
      r, i, j := ExpandSimple(n);
      FailedExpansionKeepsMapExactlyWhen(hash, old(buckets.hashpower), slot_per_bucket, t, contents, p, husk, i, j);
      NoHusks(husk, t);
    }

    /** cuckoo_reserve: room for n elements, or for those stored if they need more. */
    method Reserve(n: nat) returns (r: Result<bool>, ghost i: nat, ghost j: nat)
      requires Valid()
      modifies this`all_locks, this`pos, buckets
      ensures r.Success? ==> Valid() && n <= Capacity()
      ensures r.Success? ==> r.value == !JustHolds(old(buckets.hashpower), n, slot_per_bucket)
      ensures r.Success? ==> forall hp: nat :: JustHolds(hp, n, slot_per_bucket) ==>
        Resized(hash, slot_per_bucket, contents, hp, old(buckets.hashpower), buckets.hashpower, r.value)
      ensures r.Success? && !r.value ==>
        buckets.hashpower == old(buckets.hashpower) && buckets.buckets == old(buckets.buckets)
      ensures r.Failure? ==> buckets.buckets == Husks(husk, old(buckets.buckets), i, j)
      ensures old(MovesAreCopies()) ==> Valid()
    {
      ghost var t, p := buckets.buckets, pos;
      i, j := 0, 0;
      var new_hp := ReserveCalc(n, slot_per_bucket);
      OneSmallest(new_hp, n, slot_per_bucket);
      StoredIsNotOverfull(hash, buckets.hashpower, slot_per_bucket, buckets.buckets, contents, pos);
      if new_hp == buckets.hashpower { return Success(false), 0, 0; }
      r, i, j := ExpandSimple(new_hp);
      FailedExpansionKeepsMapExactlyWhen(hash, old(buckets.hashpower), slot_per_bucket, t, contents, p, husk, i, j);
      if r.Success? {
        Pow2Mono(new_hp, buckets.hashpower);
        MulMono(Pow2(new_hp), Pow2(buckets.hashpower), slot_per_bucket);
      }
    }
  }

  /** The constructor's argument brings the new map to just the hashpower asked for. */
  lemma NewMapFits(hp: nat, new_hp: nat, S: nat)
    requires S > 0 && JustHolds(hp, Pow2(new_hp) * S, S)
    ensures hp == new_hp
  {
    NewMapHasRoom(hp, new_hp, S);
    if new_hp < hp { assert false; }
  }

  lemma NewMapHasRoom(hp: nat, new_hp: nat, S: nat)
    requires S > 0 && Pow2(new_hp) * S <= Pow2(hp) * S
    ensures hp >= new_hp
  {
    if hp < new_hp {
      Pow2Mono(hp + 1, new_hp);
      MulMono(Pow2(hp) + 1, Pow2(new_hp), S);
    }
  }
}
