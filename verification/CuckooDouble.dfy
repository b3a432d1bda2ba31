/**
 Doubling the cuckoo table: every bucket splits into itself and the bucket one
 old table size later.
 */
module CuckooDouble {
  import opened Modular
  import opened Buckets
  import opened CuckooHash
  import opened CuckooTable

  predicate Goes<K, V>(h: K -> nat, hp: nat, i: nat, s: Slot<K, V>) {
    s.Item? && MovesUp(hp, HashOf(h, s.key), i)
  }

  /** How many of the first j items of bucket i move up. */
  function Rank<K, V>(h: K -> nat, hp: nat, i: nat, b: Bucket<K, V>, j: nat): (r: nat)
    requires j <= |b|
    ensures r <= j
  {
    if j == 0 then 0 else Rank(h, hp, i, b, j - 1) + (if Goes(h, hp, i, b[j - 1]) then 1 else 0)
  }

  /** The two buckets after the first j slots of bucket i have been dealt with. */
  function Low<K, V>(h: K -> nat, hp: nat, i: nat, b: Bucket<K, V>, j: nat): (r: Bucket<K, V>)
    requires j <= |b|
    ensures |r| == |b|
  {
    seq(|b|, y requires 0 <= y < |b| => if y < j && b[y].Item? && !Goes(h, hp, i, b[y]) then b[y] else Free)
  }

  function High<K, V>(h: K -> nat, hp: nat, i: nat, b: Bucket<K, V>, j: nat): (r: Bucket<K, V>)
    requires j <= |b|
    ensures |r| == |b|
  {
    if j == 0 then seq(|b|, _ => Free)
    else if Goes(h, hp, i, b[j - 1]) then High(h, hp, i, b, j - 1)[Rank(h, hp, i, b, j - 1) := b[j - 1]]
    else High(h, hp, i, b, j - 1)
  }

  /** The moved items fill the new bucket from the front, in order. */
  lemma {:induction false} HighAt<K, V>(h: K -> nat, hp: nat, i: nat, b: Bucket<K, V>, j: nat)
    requires j <= |b|
    ensures forall x :: Rank(h, hp, i, b, j) <= x < |b| ==> High(h, hp, i, b, j)[x].Free?
    ensures forall y :: 0 <= y < j && Goes(h, hp, i, b[y]) ==>
      Rank(h, hp, i, b, y) < Rank(h, hp, i, b, j) && High(h, hp, i, b, j)[Rank(h, hp, i, b, y)] == b[y]
    ensures forall x :: 0 <= x < Rank(h, hp, i, b, j) ==> FromBelow(h, hp, i, b, j, x)
  {
    if j > 0 {
      HighAt(h, hp, i, b, j - 1);
      var r := Rank(h, hp, i, b, j - 1);
      forall x | 0 <= x < Rank(h, hp, i, b, j) ensures FromBelow(h, hp, i, b, j, x) {
        if x < r {
          assert FromBelow(h, hp, i, b, j - 1, x);
          var y :| 0 <= y < j - 1 && Goes(h, hp, i, b[y]) && Rank(h, hp, i, b, y) == x;
          assert Rank(h, hp, i, b, y) == x;
        } else {
          assert Rank(h, hp, i, b, j - 1) == x;
        }
      }
    }
  }

  ghost predicate FromBelow<K, V>(h: K -> nat, hp: nat, i: nat, b: Bucket<K, V>, j: nat, x: nat)
    requires j <= |b|
  {
    exists y :: 0 <= y < j && Goes(h, hp, i, b[y]) && Rank(h, hp, i, b, y) == x
  }

  /** Bucket x of the doubled table. */
  function DoubledBucket<K, V>(h: K -> nat, hp: nat, t: Table<K, V>, x: nat): Bucket<K, V>
    requires |t| == HashSize(hp) && x < 2 * |t|
  {
    if x < |t| then Low(h, hp, x, t[x], |t[x]|) else High(h, hp, x - |t|, t[x - |t|], |t[x - |t|]|)
  }

  function Doubled<K, V>(h: K -> nat, hp: nat, t: Table<K, V>): Table<K, V>
    requires |t| == HashSize(hp)
  {
    seq(2 * |t|, x requires 0 <= x < 2 * |t| => DoubledBucket(h, hp, t, x))
  }

  /** Where a key is after doubling. */
  function NewPos<K, V>(h: K -> nat, hp: nat, t: Table<K, V>, p: Pos): Pos
    requires |t| == HashSize(hp) && At(t, p)
  {
    if Goes(h, hp, p.i, t[p.i][p.j]) then Pos(p.i + |t|, Rank(h, hp, p.i, t[p.i], p.j)) else p
  }

  lemma NewPosStored<K, V>(h: K -> nat, hp: nat, S: nat, t: Table<K, V>, p: Pos, k: K, v: V)
    requires Shape(t, hp, S) && Stored(h, hp, t, p, k, v)
    ensures Stored(h, hp + 1, Doubled(h, hp, t), NewPos(h, hp, t, p), k, v)
  {
    HighAt(h, hp, p.i, t[p.i], |t[p.i]|);
    DoublingKeepsCandidates(hp, HashOf(h, k), p.i);
  }

  lemma OldSlotOf<K, V>(h: K -> nat, hp: nat, S: nat, t: Table<K, V>, i: nat, j: nat) returns (p: Pos)
    requires Shape(t, hp, S) && InRange(Doubled(h, hp, t), i, j) && Doubled(h, hp, t)[i][j].Item?
    ensures At(t, p) && t[p.i][p.j] == Doubled(h, hp, t)[i][j] && NewPos(h, hp, t, p) == Pos(i, j)
  {
    if i < |t| {
      p := Pos(i, j);
    } else {
      var o := i - |t|;
      HighAt(h, hp, o, t[o], |t[o]|);
      assert FromBelow(h, hp, o, t[o], |t[o]|, j);
      var y :| 0 <= y < |t[o]| && Goes(h, hp, o, t[o][y]) && Rank(h, hp, o, t[o], y) == j;
      p := Pos(o, y);
    }
  }

  /** Doubling keeps the stored map: every key lands in a candidate bucket of the
      new hashpower, and no two in the same slot. */
  lemma DoublingKeepsMap<K, V>(h: K -> nat, hp: nat, S: nat, t: Table<K, V>, m: map<K, V>, pos: map<K, Pos>)
      returns (pos': map<K, Pos>)
    requires Holds(h, hp, S, t, m, pos)
    ensures Holds(h, hp + 1, S, Doubled(h, hp, t), m, pos')
  {
    var t': Table<K, V> := Doubled(h, hp, t);
    pos' := NewPositions(h, hp, S, t, m, pos);
    forall k | k in m ensures Stored(h, hp + 1, t', pos'[k], k, m[k]) { NewPosStored(h, hp, S, t, pos[k], k, m[k]); }
    forall i: nat, j: nat | InRange(t', i, j) && t'[i][j].Item?
      ensures t'[i][j].key in m && pos'[t'[i][j].key] == Pos(i, j) {
      OnlyKeysAt(h, hp, S, t, m, pos, i, j);
    }
    forall i | 0 <= i < |t'| ensures |t'[i]| == S {}
  }

  ghost function NewPositions<K, V>(h: K -> nat, hp: nat, S: nat, t: Table<K, V>, m: map<K, V>, pos: map<K, Pos>):
      (pos': map<K, Pos>)
    requires Holds(h, hp, S, t, m, pos)
    ensures pos'.Keys == m.Keys && forall k :: k in m ==> At(t, pos[k]) && pos'[k] == NewPos(h, hp, t, pos[k])
  {
    assert forall k :: k in m ==> Stored(h, hp, t, pos[k], k, m[k]);
    map k | k in m :: NewPos(h, hp, t, pos[k])
  }

  lemma OnlyKeysAt<K, V>(h: K -> nat, hp: nat, S: nat, t: Table<K, V>, m: map<K, V>, pos: map<K, Pos>, i: nat, j: nat)
    requires Holds(h, hp, S, t, m, pos) && InRange(Doubled(h, hp, t), i, j) && Doubled(h, hp, t)[i][j].Item?
    ensures var k := Doubled(h, hp, t)[i][j].key;
      k in m && NewPositions(h, hp, S, t, m, pos)[k] == Pos(i, j)
  {
    var p := OldSlotOf(h, hp, S, t, i, j);
    assert InRange(t, p.i, p.j);
  }

  // ----------------------------------------------------------- move_buckets

  /** The new table once the old buckets start, ..., end - 1 have been moved. */
  function Moved<K, V>(h: K -> nat, hp: nat, t: Table<K, V>, n: Table<K, V>, start: nat, end: nat): (r: Table<K, V>)
    requires |t| == HashSize(hp) && |n| == 2 * |t|
    ensures |r| == |n|
  {
    seq(|n|, x requires 0 <= x < |n| =>
      if start <= x < end || start <= x - |t| < end then DoubledBucket(h, hp, t, x) else n[x])
  }

  /** Workers that move disjoint ranges write disjoint buckets: the order of their
      work does not matter. */
  lemma WorkersCommute<K, V>(h: K -> nat, hp: nat, t: Table<K, V>, n: Table<K, V>, a: nat, b: nat, c: nat, d: nat)
    requires |t| == HashSize(hp) && |n| == 2 * |t| && b <= |t| && d <= |t| && (b <= c || d <= a)
    ensures Moved(h, hp, t, Moved(h, hp, t, n, a, b), c, d) == Moved(h, hp, t, Moved(h, hp, t, n, c, d), a, b)
  {
  }

  /** Adjoining ranges make one range; the whole range makes the doubled table. */
  lemma RangesJoin<K, V>(h: K -> nat, hp: nat, t: Table<K, V>, n: Table<K, V>, a: nat, b: nat, c: nat)
    requires |t| == HashSize(hp) && |n| == 2 * |t| && a <= b <= c <= |t|
    ensures Moved(h, hp, t, Moved(h, hp, t, n, a, b), b, c) == Moved(h, hp, t, n, a, c)
    ensures Moved(h, hp, t, n, 0, |t|) == Doubled(h, hp, t)
    ensures Moved(h, hp, t, n, a, a) == n
  {
  }

  predicate AllFree<K, V>(b: Bucket<K, V>) { forall y :: 0 <= y < |b| ==> b[y].Free? }

  predicate RangeFree<K, V>(t: Table<K, V>, a: nat, b: nat)
    requires b <= |t|
  {
    forall x :: a <= x < b ==> AllFree(t[x])
  }

  /** A new table is still free where no worker has been. */
  lemma StillFree<K, V>(h: K -> nat, hp: nat, S: nat, t: Table<K, V>, start: nat, end: nat)
    requires |t| == HashSize(hp) && start <= end <= |t|
    ensures var n := Moved(h, hp, t, Empty(hp + 1, S), 0, start);
      RangeFree(n, start, end) && RangeFree(n, start + |t|, end + |t|)
  {
    var e: Table<K, V> := Empty(hp + 1, S);
    forall x | 0 <= x < |e| ensures AllFree(e[x]) {
      forall y | 0 <= y < |e[x]| ensures e[x][y].Free? { assert InRange(e, x, y); }
    }
  }

  /** The part of move_buckets for one old bucket. */
  method MoveBucket<K, V>(h: K -> nat, c: BucketContainer<K, V>, n: BucketContainer<K, V>, i: nat)
    requires c != n && c.Valid() && n.Valid() && n.hashpower == c.hashpower + 1
      && n.slot_per_bucket == c.slot_per_bucket
    requires i < |c.buckets| && |n.buckets| == 2 * |c.buckets|
    requires AllFree(n.buckets[i]) && AllFree(n.buckets[i + |c.buckets|])
    modifies n`buckets
    ensures n.Valid()
    ensures n.buckets == old(n.buckets)[i := DoubledBucket(h, c.hashpower, c.buckets, i)]
                                       [i + |c.buckets| := DoubledBucket(h, c.hashpower, c.buckets, i + |c.buckets|)]
  {
    var hp, b := c.hashpower, c.buckets[i];
    var new_bucket_ind := i + |c.buckets|;
    ghost var was := n.buckets;
    var new_bucket_slot, j := 0, 0;
    assert Low(h, hp, i, b, 0) == was[i];
    assert High(h, hp, i, b, 0) == was[new_bucket_ind];
    assert was == was[i := Low(h, hp, i, b, 0)][new_bucket_ind := High(h, hp, i, b, 0)];
    while j < c.slot_per_bucket
      invariant 0 <= j <= c.slot_per_bucket == |b| && n.Valid()
      invariant new_bucket_slot == Rank(h, hp, i, b, j)
      invariant n.buckets == was[i := Low(h, hp, i, b, j)][new_bucket_ind := High(h, hp, i, b, j)]
    {
      new_bucket_slot := MoveItem(h, hp, n, i, b, j, new_bucket_ind, new_bucket_slot, was);
      j := j + 1;
    }
  }

  /** One turn of its loop. */
  method MoveItem<K, V>(h: K -> nat, hp: nat, n: BucketContainer<K, V>, i: nat, b: Bucket<K, V>, j: nat,
      new_bucket_ind: nat, new_bucket_slot: nat, ghost was: Table<K, V>)
    returns (slot: nat)
    requires n.Valid() && |b| == n.slot_per_bucket && j < |b| && i < new_bucket_ind < |was|
    requires new_bucket_slot == Rank(h, hp, i, b, j)
    requires n.buckets == was[i := Low(h, hp, i, b, j)][new_bucket_ind := High(h, hp, i, b, j)]
    modifies n`buckets
    ensures n.Valid() && slot == Rank(h, hp, i, b, j + 1)
    ensures n.buckets == was[i := Low(h, hp, i, b, j + 1)][new_bucket_ind := High(h, hp, i, b, j + 1)]
  {
    HighNext(h, hp, i, b, j);
    LowNext(h, hp, i, b, j);
    slot := new_bucket_slot;
    if b[j].Item? {
      if Goes(h, hp, i, b[j]) {
        n.SetKV(new_bucket_ind, slot, b[j].partial, b[j].key, b[j].value);
        slot := slot + 1;
      } else {
        n.SetKV(i, j, b[j].partial, b[j].key, b[j].value);
      }
    }
  }

  lemma LowNext<K, V>(h: K -> nat, hp: nat, i: nat, b: Bucket<K, V>, j: nat)
    requires j < |b|
    ensures Low(h, hp, i, b, j)[j].Free?
    ensures Low(h, hp, i, b, j + 1) == if b[j].Item? && !Goes(h, hp, i, b[j]) then Low(h, hp, i, b, j)[j := b[j]]
      else Low(h, hp, i, b, j)
  {
  }

  lemma HighNext<K, V>(h: K -> nat, hp: nat, i: nat, b: Bucket<K, V>, j: nat)
    requires j < |b|
    ensures High(h, hp, i, b, j)[Rank(h, hp, i, b, j)].Free?
    ensures Rank(h, hp, i, b, j + 1) == Rank(h, hp, i, b, j) + (if Goes(h, hp, i, b[j]) then 1 else 0)
    ensures High(h, hp, i, b, j + 1) == if Goes(h, hp, i, b[j])
      then High(h, hp, i, b, j)[Rank(h, hp, i, b, j) := b[j]] else High(h, hp, i, b, j)
  {
    HighAt(h, hp, i, b, j);
  }

  /** move_buckets. */
  method MoveBuckets<K, V>(h: K -> nat, c: BucketContainer<K, V>, n: BucketContainer<K, V>, start_ind: nat,
      end_ind: nat)
    requires c != n && c.Valid() && n.Valid() && n.hashpower == c.hashpower + 1
      && n.slot_per_bucket == c.slot_per_bucket
    requires start_ind <= end_ind <= |c.buckets| && |n.buckets| == 2 * |c.buckets|
    requires RangeFree(n.buckets, start_ind, end_ind)
      && RangeFree(n.buckets, start_ind + |c.buckets|, end_ind + |c.buckets|)
    modifies n`buckets
    ensures n.Valid() && n.buckets == Moved(h, c.hashpower, c.buckets, old(n.buckets), start_ind, end_ind)
  {
    ghost var was := n.buckets;
    var i := start_ind;
    assert n.buckets == Moved(h, c.hashpower, c.buckets, was, start_ind, start_ind);
    while i < end_ind
      invariant start_ind <= i <= end_ind && n.Valid()
      invariant n.buckets == Moved(h, c.hashpower, c.buckets, was, start_ind, i)
    {
      MoveBucket(h, c, n, i);
      i := i + 1;
    }
  }

  /** parallel_exec of move_buckets, with any number of threads: the ranges are
      those of the source. */
  method MoveAll<K, V>(h: K -> nat, c: BucketContainer<K, V>, n: BucketContainer<K, V>, num_threads: nat)
    requires c != n && c.Valid() && n.Valid() && n.hashpower == c.hashpower + 1
      && n.slot_per_bucket == c.slot_per_bucket
    requires n.buckets == Empty(n.hashpower, n.slot_per_bucket) && num_threads > 0
    modifies n`buckets
    ensures n.Valid() && n.buckets == Doubled(h, c.hashpower, c.buckets)
  {
    var start, end := 0, |c.buckets|;
    var work_per_thread := (end - start) / num_threads;
    var i := 0;
    RangesJoin(h, c.hashpower, c.buckets, n.buckets, 0, 0, 0);
    while i < num_threads - 1
      invariant 0 <= i <= num_threads - 1 && start == i * work_per_thread && n.Valid()
      invariant n.buckets == Moved(h, c.hashpower, c.buckets, old(n.buckets), 0, start)
    {
      ShareFits(end, num_threads, i);
      MoveShare(h, c, n, start, start + work_per_thread);
      start := start + work_per_thread;
      i := i + 1;
    }
    ShareFits(end, num_threads, i);
    MoveShare(h, c, n, start, end);
    RangesJoin(h, c.hashpower, c.buckets, old(n.buckets), 0, 0, end);
  }

  /** One worker's share, after those before it. */
  method MoveShare<K, V>(h: K -> nat, c: BucketContainer<K, V>, n: BucketContainer<K, V>, start: nat, end: nat)
    requires c != n && c.Valid() && n.Valid() && n.hashpower == c.hashpower + 1
      && n.slot_per_bucket == c.slot_per_bucket
    requires start <= end <= |c.buckets|
    requires n.buckets == Moved(h, c.hashpower, c.buckets, Empty(n.hashpower, n.slot_per_bucket), 0, start)
    modifies n`buckets
    ensures n.Valid()
    ensures n.buckets == Moved(h, c.hashpower, c.buckets, Empty(n.hashpower, n.slot_per_bucket), 0, end)
  {
    StillFree(h, c.hashpower, c.slot_per_bucket, c.buckets, start, end);
    MoveBuckets(h, c, n, start, end);
    RangesJoin(h, c.hashpower, c.buckets, Empty(n.hashpower, n.slot_per_bucket), 0, start, end);
  }

  lemma ShareFits(n: nat, threads: nat, i: nat)
    requires i < threads
    ensures i * (n / threads) + n / threads <= n
  {
    MulMono(i + 1, threads, n / threads);
  }
}
