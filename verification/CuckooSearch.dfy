/**
 Breadth-first search for an eviction path in the cuckoo table, the path's coding
 in one number, and the moves along it.

 The queue is an array filled from left to right.  Its first two entries are the
 two insert buckets, and the children of entry n are entries 2 + S n, ...,
 2 + S n + S - 1: one for each of the S slots of n's bucket, starting from the
 slot the source starts from.
 */
module CuckooSearch {
  import opened Modular
  import opened Buckets
  import opened CuckooHash

  const MAX_BFS_PATH_LEN: nat := 5

  /** const_pow */
  function ConstPow(a: nat, b: nat): (r: nat)
    ensures a > 0 ==> r > 0
  {
    if b == 0 then 1
    else
      var p := ConstPow(a, b - 1);
      MulBoth(0, a, 0, p);
      if a > 0 then assert a * p >= p by { MulMono(1, a, p); } a * p else a * p
  }

  lemma MulBoth(a: nat, b: nat, c: nat, d: nat)
    requires a <= b && c <= d
    ensures a * c <= b * d
  {
    MulMono(a, b, c);
    MulMono(c, d, b);
  }

  /** 1 + S + ... + S^(d - 1) */
  function Geometric(S: nat, d: nat): nat { if d == 0 then 0 else 1 + S * Geometric(S, d - 1) }

  /** The source's size of the queue. */
  function MaxCuckooCount(S: nat): nat
    requires S > 0
  {
    2 * (if S == 1 then MAX_BFS_PATH_LEN else (ConstPow(S, MAX_BFS_PATH_LEN) - 1) / (S - 1))
  }

  lemma GeometricTerm(S: nat, g: nat, p: nat)
    requires S > 0 && (S - 1) * g == p - 1
    ensures (S - 1) * (1 + S * g) == S * p - 1
  {
    assert (S - 1) * (S * g) == S * ((S - 1) * g);
  }

  lemma {:induction false} GeometricSum(S: nat, d: nat)
    requires S > 0
    ensures (S - 1) * Geometric(S, d) == ConstPow(S, d) - 1
  {
    if d > 0 {
      GeometricSum(S, d - 1);
      GeometricTerm(S, Geometric(S, d - 1), ConstPow(S, d - 1));
    }
  }

  /** The queue holds just enough for two full search trees. */
  lemma QueueSize(S: nat)
    requires S > 0
    ensures MaxCuckooCount(S) == 2 * Geometric(S, MAX_BFS_PATH_LEN)
  {
    GeometricSum(S, MAX_BFS_PATH_LEN);
    if S == 1 {
      assert Geometric(1, 0) == 0 && Geometric(1, 1) == 1 && Geometric(1, 2) == 2 && Geometric(1, 3) == 3;
      assert Geometric(1, 4) == 4 && Geometric(1, 5) == 5;
    } else {
      var g := Geometric(S, MAX_BFS_PATH_LEN);
      assert ConstPow(S, MAX_BFS_PATH_LEN) - 1 == g * (S - 1) + 0;
      DivUnique(ConstPow(S, MAX_BFS_PATH_LEN) - 1, g, 0, S - 1);
    }
  }

  lemma {:induction false} GeometricMono(S: nat, d: nat, e: nat)
    requires S > 0 && d <= e
    ensures Geometric(S, d) <= Geometric(S, e)
    decreases e
  {
    if d < e {
      GeometricMono(S, d, e - 1);
      GeometricStep(S, e - 1);
    }
  }

  lemma {:induction false} GeometricStep(S: nat, d: nat)
    requires S > 0
    ensures Geometric(S, d) < Geometric(S, d + 1)
  {
    if d > 0 {
      GeometricStep(S, d - 1);
      MulMono(Geometric(S, d - 1), Geometric(S, d), S);
      MulMono(Geometric(S, d - 1) + 1, Geometric(S, d), S);
    }
  }

  // -------------------------------------------------------------- path codes

  /** std::uint16_t */
  function Wrap16(x: nat): nat { x % 0x1_0000 }

  /** The number that stands for a start bucket (0 or 1) and a list of slots. */
  function Code(start: nat, slots: seq<nat>, S: nat): nat {
    if slots == [] then start else Code(start, slots[..|slots| - 1], S) * S + slots[|slots| - 1]
  }

  lemma ShiftBound(c: nat, p: nat, S: nat, s: nat)
    requires c < 2 * p && s < S
    ensures c * S + s < 2 * (S * p)
  {
    MulMono(c + 1, 2 * p, S);
  }

  lemma {:induction false} CodeBound(start: nat, slots: seq<nat>, S: nat)
    requires start < 2 && S > 0 && forall k :: 0 <= k < |slots| ==> slots[k] < S
    ensures Code(start, slots, S) < 2 * ConstPow(S, |slots|)
  {
    if slots != [] {
      var n := |slots| - 1;
      CodeBound(start, slots[..n], S);
      ShiftBound(Code(start, slots[..n], S), ConstPow(S, n), S, slots[n]);
    }
  }

  /** Reading slots off a code, last one first; what is left is the start. */
  function Digits(code: nat, n: nat, S: nat): (r: seq<nat>)
    requires S > 0
    ensures |r| == n
    decreases n
  {
    if n == 0 then [] else Digits(code / S, n - 1, S) + [code % S]
  }

  function Rest(code: nat, n: nat, S: nat): nat
    requires S > 0
    decreases n
  {
    if n == 0 then code else Rest(code / S, n - 1, S)
  }

  /** Decoding undoes coding. */
  lemma {:induction false} DecodeCode(start: nat, slots: seq<nat>, S: nat)
    requires S > 0 && forall k :: 0 <= k < |slots| ==> slots[k] < S
    ensures Digits(Code(start, slots, S), |slots|, S) == slots
    ensures Rest(Code(start, slots, S), |slots|, S) == start
  {
    if slots != [] {
      var n := |slots| - 1;
      DecodeCode(start, slots[..n], S);
      DivUnique(Code(start, slots, S), Code(start, slots[..n], S), slots[n], S);
      assert slots == slots[..n] + [slots[n]];
    }
  }

  lemma {:induction false} PowMono(a: nat, b: nat, n: nat)
    requires a <= b
    ensures ConstPow(a, n) <= ConstPow(b, n)
  {
    if n > 0 {
      PowMono(a, b, n - 1);
      MulBoth(a, b, ConstPow(a, n - 1), ConstPow(b, n - 1));
    }
  }

  lemma EightAndNine()
    ensures ConstPow(8, 5) == 32768 && ConstPow(9, 5) == 59049
  {
    assert ConstPow(8, 1) == 8 && ConstPow(8, 2) == 64 && ConstPow(8, 3) == 512 && ConstPow(8, 4) == 4096;
    assert ConstPow(9, 1) == 9 && ConstPow(9, 2) == 81 && ConstPow(9, 3) == 729 && ConstPow(9, 4) == 6561;
  }

  /** Every code of a full-length path fits in 16 bits exactly when a bucket has
      at most 8 slots.  The source's static assertion, S^5 < 65535, also lets
      S = 9 through. */
  lemma CodesFitExactlyUpToEight(S: nat)
    requires S > 0
    ensures S <= 8 <==>
      forall start: nat, slots: seq<nat> ::
        start < 2 && |slots| == 5 && (forall k :: 0 <= k < 5 ==> slots[k] < S) ==>
          Wrap16(Code(start, slots, S)) == Code(start, slots, S)
    ensures ConstPow(9, 5) < 65535
  {
    EightAndNine();
    if S <= 8 {
      PowMono(S, 8, 5);
      forall start: nat, slots: seq<nat> | start < 2 && |slots| == 5 && (forall k :: 0 <= k < 5 ==> slots[k] < S)
        ensures Wrap16(Code(start, slots, S)) == Code(start, slots, S)
      {
        CodeBound(start, slots, S);
        DivUnique(Code(start, slots, S), 0, Code(start, slots, S), 0x1_0000);
      }
    } else {
      PowMono(9, S, 5);
      var slots: seq<nat> := [S - 1, S - 1, S - 1, S - 1, S - 1];
      TopCode(S);
      assert Code(1, slots, S) >= 0x1_0000;
      assert Wrap16(Code(1, slots, S)) != Code(1, slots, S);
    }
  }

  lemma TopCode(S: nat)
    requires S > 0
    ensures Code(1, [S - 1, S - 1, S - 1, S - 1, S - 1], S) == 2 * ConstPow(S, 5) - 1
  {
    var d: nat := S - 1;
    TopCodeStep(S, []);
    assert [] + [d] == [d];
    TopCodeStep(S, [d]);
    assert [d] + [d] == [d, d];
    TopCodeStep(S, [d, d]);
    assert [d, d] + [d] == [d, d, d];
    TopCodeStep(S, [d, d, d]);
    assert [d, d, d] + [d] == [d, d, d, d];
    TopCodeStep(S, [d, d, d, d]);
    assert [d, d, d, d] + [d] == [d, d, d, d, d];
  }

  lemma TopArithmetic(p: nat, S: nat)
    ensures (2 * p - 1) * S + (S - 1) == 2 * (S * p) - 1
  {
  }

  lemma TopCodeStep(S: nat, slots: seq<nat>)
    requires S > 0 && Code(1, slots, S) == 2 * ConstPow(S, |slots|) - 1
    ensures Code(1, slots + [S - 1], S) == 2 * ConstPow(S, |slots| + 1) - 1
  {
    assert (slots + [S - 1])[..|slots|] == slots;
    TopArithmetic(ConstPow(S, |slots|), S);
  }

  // ------------------------------------------------------------------ paths

  /** A walk of evictions: from one of the insert buckets, each next bucket is the
      alternate one of the item in the slot taken. */
  ghost predicate Walk<K, V>(t: Table<K, V>, hp: nat, i1: nat, i2: nat, bs: seq<nat>, ss: seq<nat>) {
    && |bs| == |ss| + 1 && (bs[0] == i1 || bs[0] == i2)
    && forall k :: 0 <= k < |ss| ==> Evicts(t, hp, bs[k], ss[k], bs[k + 1])
  }

  predicate Evicts<K, V>(t: Table<K, V>, hp: nat, b: nat, s: nat, b': nat) {
    InRange(t, b, s) && t[b][s].Item? && b' == AltIndex(hp, t[b][s].partial, b)
  }

  ghost predicate Distinct(bs: seq<nat>) { forall j, k :: 0 <= j < k < |bs| ==> bs[j] != bs[k] }

  /** Every walk of fewer than d evictions ends in a full bucket. */
  ghost predicate NothingCloser<K, V>(t: Table<K, V>, hp: nat, i1: nat, i2: nat, d: nat) {
    forall bs: seq<nat>, ss: seq<nat> :: Walk(t, hp, i1, i2, bs, ss) && |ss| < d ==> bs[|ss|] < |t| && Full(t[bs[|ss|]])
  }

  /** A shortest walk to a bucket with room visits no bucket twice: the part
      between two visits could be left out. */
  lemma ShortestIsDistinct<K, V>(t: Table<K, V>, hp: nat, i1: nat, i2: nat, bs: seq<nat>, ss: seq<nat>)
    requires Walk(t, hp, i1, i2, bs, ss) && NothingCloser(t, hp, i1, i2, |ss|)
    requires bs[|ss|] < |t| && !Full(t[bs[|ss|]])
    ensures Distinct(bs)
  {
    forall j, k | 0 <= j < k < |bs| ensures bs[j] != bs[k] {
      if bs[j] == bs[k] { CutCycle(t, hp, i1, i2, bs, ss, j, k); }
    }
  }

  lemma CutCycle<K, V>(t: Table<K, V>, hp: nat, i1: nat, i2: nat, bs: seq<nat>, ss: seq<nat>, j: nat, k: nat)
    requires Walk(t, hp, i1, i2, bs, ss) && NothingCloser(t, hp, i1, i2, |ss|) && j < k < |bs| && bs[j] == bs[k]
    ensures bs[|ss|] < |t| && Full(t[bs[|ss|]])
  {
    var bs', ss' := bs[..j] + bs[k..], ss[..j] + ss[k..];
    forall x | 0 <= x < |ss'| ensures Evicts(t, hp, bs'[x], ss'[x], bs'[x + 1]) {
      if x < j { assert Evicts(t, hp, bs[x], ss[x], bs[x + 1]); }
      else { assert Evicts(t, hp, bs[x - j + k], ss[x - j + k], bs[x - j + k + 1]); }
    }
    assert Walk(t, hp, i1, i2, bs', ss');
    assert bs'[|ss'|] == bs[|ss|];
  }

  // ------------------------------------------------------------- the search

  datatype BSlot = BSlot(bucket: nat, pathcode: nat, depth: int)

  /** The slot that the i-th child of an entry evicts. */
  function ChildSlot(pathcode: nat, i: nat, S: nat): (slot: nat)
    requires S > 0
    ensures slot < S
  {
    (pathcode % S + i) % S
  }

  /** Entry n comes from its parent by evicting one slot. */
  ghost predicate ChildOk<K, V>(t: Table<K, V>, hp: nat, S: nat, q: seq<BSlot>, n: nat)
    requires S > 0 && 2 <= n < |q|
  {
    && 0 <= (n - 2) / S < n
    && ComesFrom(t, hp, S, q[(n - 2) / S], (n - 2) % S, q[n])
  }

  /** y is the i-th child of x. */
  ghost predicate ComesFrom<K, V>(t: Table<K, V>, hp: nat, S: nat, x: BSlot, i: nat, y: BSlot)
    requires S > 0
  {
    var slot := ChildSlot(x.pathcode, i, S);
    && Evicts(t, hp, x.bucket, slot, y.bucket)
    && y.pathcode == x.pathcode * S + slot && y.depth == x.depth + 1
  }

  lemma ParentBefore(n: nat, S: nat)
    requires S > 0 && n >= 2
    ensures (n - 2) / S < n && n == 2 + S * ((n - 2) / S) + (n - 2) % S
  {
    var x := n - 2;
    assert x == S * (x / S) + x % S;
    MulMono(1, S, x / S);
  }

  lemma ChildNumber(p: nat, i: nat, S: nat)
    requires i < S
    ensures (2 + S * p + i - 2) / S == p && (2 + S * p + i - 2) % S == i
  {
    DivUnique(S * p + i, p, i, S);
  }

  /** Entry n at depth d is one of the entries of level d. */
  predicate LevelOk(S: nat, q: seq<BSlot>, n: nat)
    requires n < |q|
  {
    && 0 <= q[n].depth < MAX_BFS_PATH_LEN
    && 2 * Geometric(S, q[n].depth) <= n < 2 * Geometric(S, q[n].depth + 1)
    && q[n].pathcode < 2 * ConstPow(S, q[n].depth)
  }

  /** The queue: two roots, then children in the order of their parents. */
  ghost predicate QueueOk<K, V>(t: Table<K, V>, hp: nat, S: nat, i1: nat, i2: nat, q: seq<BSlot>) {
    && S > 0 && |q| >= 2 && q[0] == BSlot(i1, 0, 0) && q[1] == BSlot(i2, 1, 0)
    && (forall n :: 2 <= n < |q| ==> ChildOk(t, hp, S, q, n))
    && (forall n :: 0 <= n < |q| ==> q[n].bucket < |t| && LevelOk(S, q, n))
  }

  /** How many entries there are once `first` of them have been expanded. */
  function Expanded(S: nat, first: nat): nat {
    if first <= 2 * Geometric(S, MAX_BFS_PATH_LEN - 1) then 2 + S * first else 2 * Geometric(S, MAX_BFS_PATH_LEN)
  }

  lemma GeometricUnfold(S: nat, d: nat)
    ensures 2 * Geometric(S, d + 1) == 2 + S * (2 * Geometric(S, d))
  {
  }

  /** A child's level. */
  lemma ChildLevel(S: nat, p: nat, i: nat, d: nat)
    requires S > 0 && i < S && 2 * Geometric(S, d) <= p < 2 * Geometric(S, d + 1)
    ensures 2 * Geometric(S, d + 1) <= 2 + S * p + i < 2 * Geometric(S, d + 2)
  {
    GeometricUnfold(S, d);
    GeometricUnfold(S, d + 1);
    MulMono(2 * Geometric(S, d), p, S);
    MulMono(p + 1, 2 * Geometric(S, d + 1), S);
  }

  /** An entry is below the last level exactly when it is among the first ones. */
  lemma LevelOfEntry(S: nat, n: nat, d: nat)
    requires S > 0 && d < MAX_BFS_PATH_LEN && 2 * Geometric(S, d) <= n < 2 * Geometric(S, d + 1)
    ensures d < MAX_BFS_PATH_LEN - 1 <==> n < 2 * Geometric(S, MAX_BFS_PATH_LEN - 1)
  {
    if d < MAX_BFS_PATH_LEN - 1 { GeometricMono(S, d + 1, MAX_BFS_PATH_LEN - 1); }
  }

  /** From any starting slot the cyclic order visits every slot. */
  lemma CyclicCover(start: nat, slot: nat, S: nat) returns (i: nat)
    requires start < S && slot < S
    ensures i < S && (start + i) % S == slot
  {
    if start <= slot {
      i := slot - start;
      DivUnique(start + i, 0, slot, S);
    } else {
      i := slot + S - start;
      DivUnique(start + i, 1, slot, S);
    }
  }

  lemma {:induction false} PowGrows(S: nat, d: nat, e: nat)
    requires S > 0 && d <= e
    ensures ConstPow(S, d) <= ConstPow(S, e)
    decreases e
  {
    if d < e {
      PowGrows(S, d, e - 1);
      MulMono(1, S, ConstPow(S, e - 1));
    }
  }

  /** No code that the search computes is cut by its 16-bit type. */
  lemma CodeFits(code: nat, slot: nat, S: nat, d: nat)
    requires 0 < S <= 8 && slot < S && d < MAX_BFS_PATH_LEN && code < 2 * ConstPow(S, d)
    ensures Wrap16(code * S + slot) == code * S + slot < 2 * ConstPow(S, d + 1)
  {
    ShiftBound(code, ConstPow(S, d), S, slot);
    PowGrows(S, d + 1, 5);
    PowMono(S, 8, 5);
    EightAndNine();
    DivUnique(code * S + slot, 0, code * S + slot, 0x1_0000);
  }

  /** y is the i-th child of x, as the source computes it. */
  ghost predicate IsChild<K, V>(t: Table<K, V>, hp: nat, S: nat, x: BSlot, i: nat, y: BSlot)
    requires S > 0
  {
    var slot := ChildSlot(x.pathcode, i, S);
    && Evicts(t, hp, x.bucket, slot, y.bucket) && y.bucket < |t|
    && y.pathcode == Wrap16(x.pathcode * S + slot) && y.depth == x.depth + 1
  }

  lemma ChildLevelOk<K, V>(t: Table<K, V>, hp: nat, S: nat, q: seq<BSlot>, p: nat, i: nat, y: BSlot)
    requires p < |q| && i < S <= 8 && |q| == 2 + S * p + i && LevelOk(S, q, p) && q[p].depth < MAX_BFS_PATH_LEN - 1
    requires IsChild(t, hp, S, q[p], i, y)
    ensures LevelOk(S, q + [y], |q|) && y.pathcode == q[p].pathcode * S + ChildSlot(q[p].pathcode, i, S)
    ensures |q| < 2 * Geometric(S, MAX_BFS_PATH_LEN)
  {
    var d: nat := q[p].depth;
    ChildLevel(S, p, i, d);
    CodeFits(q[p].pathcode, ChildSlot(q[p].pathcode, i, S), S, d);
    GeometricMono(S, d + 2, MAX_BFS_PATH_LEN);
  }

  /** Appending the next child of entry p keeps the queue as it should be. */
  lemma PushChild<K, V>(t: Table<K, V>, hp: nat, S: nat, i1: nat, i2: nat, q: seq<BSlot>, p: nat, i: nat, y: BSlot)
    requires QueueOk(t, hp, S, i1, i2, q) && p < |q| && i < S <= 8 && |q| == 2 + S * p + i
      && q[p].depth < MAX_BFS_PATH_LEN - 1
    requires IsChild(t, hp, S, q[p], i, y)
    ensures QueueOk(t, hp, S, i1, i2, q + [y])
    ensures |q| < 2 * Geometric(S, MAX_BFS_PATH_LEN)
  {
    var q' := q + [y];
    assert LevelOk(S, q, p);
    ChildLevelOk(t, hp, S, q, p, i, y);
    ChildNumber(p, i, S);
    ParentBefore(|q|, S);
    forall k | 2 <= k < |q'| ensures ChildOk(t, hp, S, q', k) {
      if k < |q| { assert ChildOk(t, hp, S, q, k); }
    }
    forall k | 0 <= k < |q'| ensures q'[k].bucket < |t| && LevelOk(S, q', k) {
      if k < |q| { assert LevelOk(S, q, k); }
    }
  }

  /** The source's assertion before it appends a child: its array has space left. */
  lemma QueueNeverFull<K, V>(t: Table<K, V>, hp: nat, S: nat, i1: nat, i2: nat, q: seq<BSlot>, p: nat, i: nat, y: BSlot)
    requires QueueOk(t, hp, S, i1, i2, q) && p < |q| && i < S <= 8 && |q| == 2 + S * p + i
      && q[p].depth < MAX_BFS_PATH_LEN - 1
    requires IsChild(t, hp, S, q[p], i, y)
    ensures |q| < MaxCuckooCount(S)
  {
    PushChild(t, hp, S, i1, i2, q, p, i, y);
    QueueSize(S);
  }

  /** Every walk of e evictions, all of whose shorter walks have been expanded, is
      in the queue: some entry of level e has its last bucket. */
  lemma {:induction false} WalkQueued<K, V>(t: Table<K, V>, hp: nat, S: nat, i1: nat, i2: nat, q: seq<BSlot>,
      done: nat, bs: seq<nat>, ss: seq<nat>)
    returns (n: nat)
    requires QueueOk(t, hp, S, i1, i2, q) && Shape(t, hp, S) && |q| >= Expanded(S, done)
    requires Walk(t, hp, i1, i2, bs, ss) && |ss| < MAX_BFS_PATH_LEN && 2 * Geometric(S, |ss|) <= done
    ensures 2 * Geometric(S, |ss|) <= n < 2 * Geometric(S, |ss| + 1) && n < |q| && q[n].bucket == bs[|ss|]
    decreases |ss|
  {
    var e := |ss|;
    if e == 0 {
      n := if bs[0] == i1 then 0 else 1;
      assert Geometric(S, 0) == 0 && Geometric(S, 1) == 1;
    } else {
      GeometricMono(S, e - 1, e);
      forall k | 0 <= k < e - 1 ensures Evicts(t, hp, bs[..e][k], ss[..e - 1][k], bs[..e][k + 1]) {
        assert Evicts(t, hp, bs[k], ss[k], bs[k + 1]);
      }
      var p := WalkQueued(t, hp, S, i1, i2, q, done, bs[..e], ss[..e - 1]);
      assert Evicts(t, hp, bs[e - 1], ss[e - 1], bs[e]);
      n := ChildQueued(t, hp, S, i1, i2, q, done, p, e, ss[e - 1], bs[e]);
    }
  }

  /** The eviction of slot s from the bucket of entry p is queued one level on. */
  lemma ChildQueued<K, V>(t: Table<K, V>, hp: nat, S: nat, i1: nat, i2: nat, q: seq<BSlot>, done: nat, p: nat,
      e: nat, s: nat, b: nat)
    returns (n: nat)
    requires QueueOk(t, hp, S, i1, i2, q) && Shape(t, hp, S) && |q| >= Expanded(S, done) && p < |q| && p < done
    requires 0 < e < MAX_BFS_PATH_LEN && 2 * Geometric(S, e - 1) <= p < 2 * Geometric(S, e)
    requires Evicts(t, hp, q[p].bucket, s, b)
    ensures 2 * Geometric(S, e) <= n < 2 * Geometric(S, e + 1) && n < |q| && q[n].bucket == b
  {
    var i := CyclicCover(q[p].pathcode % S, s, S);
    n := 2 + S * p + i;
    ChildLevel(S, p, i, e - 1);
    ChildNumber(p, i, S);
    InQueue(S, |q|, done, p, i, e);
    assert ChildOk(t, hp, S, q, n);
  }

  lemma InQueue(S: nat, len: nat, done: nat, p: nat, i: nat, e: nat)
    requires S > 0 && len >= Expanded(S, done) && p < done && i < S && 0 < e < MAX_BFS_PATH_LEN
    requires 2 + S * p + i < 2 * Geometric(S, e + 1)
    ensures 2 + S * p + i < len
  {
    GeometricMono(S, e + 1, MAX_BFS_PATH_LEN);
    if done <= 2 * Geometric(S, MAX_BFS_PATH_LEN - 1) { ChildBelow(S, p, i, done); }
  }

  lemma ChildBelow(S: nat, p: nat, i: nat, done: nat)
    requires p < done && i < S
    ensures S * p + i < S * done
  {
    MulMono(p + 1, done, S);
  }

  /** Once all entries before `done` are expanded and full, and `done` is past
      level d - 1, no walk of fewer than d evictions leads to room. */
  lemma SearchedBelow<K, V>(t: Table<K, V>, hp: nat, S: nat, i1: nat, i2: nat, q: seq<BSlot>, done: nat, d: nat)
    requires QueueOk(t, hp, S, i1, i2, q) && Shape(t, hp, S) && |q| >= Expanded(S, done) && done <= |q|
    requires forall n :: 0 <= n < done ==> Full(t[q[n].bucket])
    requires d <= MAX_BFS_PATH_LEN && 2 * Geometric(S, d) <= done
    ensures NothingCloser(t, hp, i1, i2, d)
  {
    forall bs: seq<nat>, ss: seq<nat> | Walk(t, hp, i1, i2, bs, ss) && |ss| < d
      ensures bs[|ss|] < |t| && Full(t[bs[|ss|]])
    {
      GeometricMono(S, |ss|, d);
      GeometricMono(S, |ss| + 1, d);
      var n := WalkQueued(t, hp, S, i1, i2, q, done, bs, ss);
    }
  }

  /** What a successful search returns: entry n's code with the free slot found. */
  ghost predicate Found<K, V>(t: Table<K, V>, hp: nat, S: nat, i1: nat, i2: nat, x: BSlot, q: seq<BSlot>, n: nat) {
    && QueueOk(t, hp, S, i1, i2, q) && n < |q| && x.bucket == q[n].bucket && x.depth == q[n].depth
    && x.pathcode / S == q[n].pathcode && InRange(t, x.bucket, x.pathcode % S) && t[x.bucket][x.pathcode % S].Free?
  }

  /** One more child, unless the path has its full length. */
  method EnqueueChild<K, V>(t: Table<K, V>, hp: nat, S: nat, ghost i1: nat, ghost i2: nat, q: seq<BSlot>,
      ghost p: nat, ghost i: nat, x: BSlot, slot: nat)
    returns (q': seq<BSlot>)
    requires QueueOk(t, hp, S, i1, i2, q) && Shape(t, hp, S) && p < |q| && i < S <= 8 && x == q[p]
      && slot == ChildSlot(x.pathcode, i, S)
    requires |q| == (if x.depth < MAX_BFS_PATH_LEN - 1 then 2 + S * p + i else |q|) && InRange(t, x.bucket, slot)
      && t[x.bucket][slot].Item?
    ensures QueueOk(t, hp, S, i1, i2, q') && q <= q'
    ensures |q'| == if x.depth < MAX_BFS_PATH_LEN - 1 then |q| + 1 else |q|
  {
    q' := q;
    var partial := t[x.bucket][slot].partial;
    if x.depth < MAX_BFS_PATH_LEN - 1 {
      var y := BSlot(AltIndex(hp, partial, x.bucket), Wrap16(x.pathcode * S + slot), x.depth + 1);
      InTable(hp, 0, partial, x.bucket);
      QueueNeverFull(t, hp, S, i1, i2, q, p, i, y);   // the source's assert(!q.full())
      PushChild(t, hp, S, i1, i2, q, p, i, y);
      q' := q + [y];
    }
  }

  /** The search ends here: the slot goes to the end of the code. */
  method RoomFound<K, V>(t: Table<K, V>, hp: nat, S: nat, ghost i1: nat, ghost i2: nat, q: seq<BSlot>, n: nat,
      slot: nat)
    returns (x: BSlot)
    requires QueueOk(t, hp, S, i1, i2, q) && S <= 8 && n < |q| && InRange(t, q[n].bucket, slot) && slot < S
      && t[q[n].bucket][slot].Free?
    ensures Found(t, hp, S, i1, i2, x, q, n)
  {
    assert LevelOk(S, q, n);
    CodeFits(q[n].pathcode, slot, S, q[n].depth);
    DivUnique(q[n].pathcode * S + slot, q[n].pathcode, slot, S);
    x := q[n].(pathcode := Wrap16(q[n].pathcode * S + slot));
  }

  /** The inner loop of slot_search: look for room in the bucket of entry `first`,
      and queue the buckets its items could go to. */
  method Expand<K, V>(t: Table<K, V>, hp: nat, S: nat, i1: nat, i2: nat, q: seq<BSlot>, first: nat)
    returns (x: BSlot, q': seq<BSlot>, found: bool)
    requires QueueOk(t, hp, S, i1, i2, q) && Shape(t, hp, S) && S <= 8 && first < |q| == Expanded(S, first)
    ensures QueueOk(t, hp, S, i1, i2, q') && q <= q'
    ensures found ==> Found(t, hp, S, i1, i2, x, q', first) && x.depth == q[first].depth
    ensures !found ==> Full(t[q[first].bucket]) && |q'| == Expanded(S, first + 1)
  {
    assert LevelOk(S, q, first);
    LevelOfEntry(S, first, q[first].depth);
    x, q', found := LookForRoom(t, hp, S, i1, i2, q, first);
    if !found {
      AllSlotsSeen(t[q[first].bucket], q[first].pathcode, S);
      ExpandedNext(S, first, q[first].depth);
    }
  }

  method LookForRoom<K, V>(t: Table<K, V>, hp: nat, S: nat, i1: nat, i2: nat, q: seq<BSlot>, first: nat)
    returns (x: BSlot, q': seq<BSlot>, found: bool)
    requires QueueOk(t, hp, S, i1, i2, q) && Shape(t, hp, S) && S <= 8 && first < |q|
    requires q[first].depth < MAX_BFS_PATH_LEN - 1 ==> |q| == 2 + S * first
    ensures QueueOk(t, hp, S, i1, i2, q') && q <= q'
    ensures found ==> Found(t, hp, S, i1, i2, x, q', first) && x.depth == q[first].depth
    ensures !found ==> forall j :: 0 <= j < S ==> t[q[first].bucket][ChildSlot(q[first].pathcode, j, S)].Item?
    ensures !found ==> |q'| == if q[first].depth < MAX_BFS_PATH_LEN - 1 then 2 + S * first + S else |q|
  {
    x, q', found := q[first], q, false;
    var i := 0;
    while i < S
      invariant 0 <= i <= S && QueueOk(t, hp, S, i1, i2, q') && q <= q'
      invariant |q'| == if x.depth < MAX_BFS_PATH_LEN - 1 then 2 + S * first + i else |q|
      invariant forall j :: 0 <= j < i ==> t[x.bucket][ChildSlot(x.pathcode, j, S)].Item?
    {
      var slot := ChildSlot(x.pathcode, i, S);
      if t[x.bucket][slot].Free? {
        x := RoomFound(t, hp, S, i1, i2, q', first, slot);
        return x, q', true;
      }
      q' := EnqueueChild(t, hp, S, i1, i2, q', first, i, x, slot);
      i := i + 1;
    }
  }

  lemma AllSlotsSeen<K, V>(b: Bucket<K, V>, pathcode: nat, S: nat)
    requires S > 0 && |b| == S && forall j :: 0 <= j < S ==> b[ChildSlot(pathcode, j, S)].Item?
    ensures Full(b)
  {
    forall slot | 0 <= slot < |b| ensures b[slot].Item? {
      var j := CyclicCover(pathcode % S, slot, S);
      assert ChildSlot(pathcode, j, S) == slot;
    }
  }

  lemma ExpandedNext(S: nat, first: nat, d: nat)
    requires S > 0 && d < MAX_BFS_PATH_LEN && 2 * Geometric(S, d) <= first < 2 * Geometric(S, d + 1)
    ensures Expanded(S, first + 1) == if d < MAX_BFS_PATH_LEN - 1 then 2 + S * first + S else Expanded(S, first)
  {
    LevelOfEntry(S, first, d);
    GeometricUnfold(S, MAX_BFS_PATH_LEN - 1);
    assert S * (first + 1) == S * first + S;
  }

  /** slot_search: the nearest bucket with room, by number of evictions; depth -1
      if none can be reached with fewer than MAX_BFS_PATH_LEN. */
  method SlotSearch<K, V>(t: Table<K, V>, hp: nat, S: nat, i1: nat, i2: nat)
      returns (x: BSlot, ghost q: seq<BSlot>, ghost n: nat)
    requires Shape(t, hp, S) && 0 < S <= 8 && i1 < |t| && i2 < |t|
    ensures x.depth == -1 ==> NothingCloser(t, hp, i1, i2, MAX_BFS_PATH_LEN)
    ensures x.depth != -1 ==> Found(t, hp, S, i1, i2, x, q, n) && NothingCloser(t, hp, i1, i2, x.depth)
  {
    var queue := [BSlot(i1, 0, 0), BSlot(i2, 1, 0)];
    assert Geometric(S, 0) == 0 && Geometric(S, 1) == 1 && ConstPow(S, 0) == 1;
    var first := 0;
    while first != |queue|
      invariant first <= |queue| == Expanded(S, first) && QueueOk(t, hp, S, i1, i2, queue)
      invariant forall k :: 0 <= k < first ==> Full(t[queue[k].bucket])
      decreases 2 * Geometric(S, MAX_BFS_PATH_LEN) - first
    {
      assert LevelOk(S, queue, first);
      GeometricMono(S, queue[first].depth + 1, MAX_BFS_PATH_LEN);
      ghost var before := queue;
      var found;
      x, queue, found := Expand(t, hp, S, i1, i2, queue, first);
      if found {
        q, n := queue, first;
        SearchedBelow(t, hp, S, i1, i2, queue, first, x.depth);
        return;
      }
      first := first + 1;
    }
    x, q, n := BSlot(0, 0, -1), queue, 0;
    if first <= 2 * Geometric(S, MAX_BFS_PATH_LEN - 1) { MulMono(1, S, first); }
    SearchedBelow(t, hp, S, i1, i2, queue, first, MAX_BFS_PATH_LEN);
  }
}
