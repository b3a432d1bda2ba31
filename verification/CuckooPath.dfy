/**
 From the number a search returns back to the eviction path, and the moves along
 the path that free a slot in one of the insert buckets.
 */
module CuckooPath {
  import opened Modular
  import opened Buckets
  import opened CuckooHash
  import opened CuckooTable
  import opened CuckooSearch

  // --------------------------------------------- the path of a queue entry

  ghost function EntrySlots(q: seq<BSlot>, n: nat, S: nat): seq<nat>
    requires S > 0 && n < |q|
    decreases n
  {
    if n < 2 then [] else
      ParentBefore(n, S);
      EntrySlots(q, (n - 2) / S, S) + [q[n].pathcode % S]
  }

  ghost function EntryBuckets(q: seq<BSlot>, n: nat, S: nat): seq<nat>
    requires S > 0 && n < |q|
    decreases n
  {
    if n < 2 then [q[n].bucket] else
      ParentBefore(n, S);
      EntryBuckets(q, (n - 2) / S, S) + [q[n].bucket]
  }

  ghost function Root(n: nat, S: nat): nat
    requires S > 0
    decreases n
  {
    if n < 2 then n else
      ParentBefore(n, S);
      Root((n - 2) / S, S)
  }

  /** An entry's ancestors are a walk from an insert bucket to the entry's bucket,
      and its pathcode is the code of that walk. */
  lemma {:induction false} EntryPath<K, V>(t: Table<K, V>, hp: nat, S: nat, i1: nat, i2: nat, q: seq<BSlot>, n: nat)
    requires QueueOk(t, hp, S, i1, i2, q) && n < |q|
    ensures var bs, ss, r := EntryBuckets(q, n, S), EntrySlots(q, n, S), Root(n, S);
      && Walk(t, hp, i1, i2, bs, ss) && |ss| == q[n].depth && bs[|ss|] == q[n].bucket
      && r < 2 && bs[0] == (if r == 0 then i1 else i2)
      && q[n].pathcode == Code(r, ss, S) && forall k :: 0 <= k < |ss| ==> ss[k] < S
    decreases n
  {
    if n >= 2 {
      ParentBefore(n, S);
      var p := (n - 2) / S;
      assert ChildOk(t, hp, S, q, n);
      EntryPath(t, hp, S, i1, i2, q, p);
      var slot := ChildSlot(q[p].pathcode, (n - 2) % S, S);
      DivUnique(q[n].pathcode, q[p].pathcode, slot, S);
      var bs, ss := EntryBuckets(q, n, S), EntrySlots(q, n, S);
      assert ss[..|ss| - 1] == EntrySlots(q, p, S);
      forall k | 0 <= k < |ss| ensures Evicts(t, hp, bs[k], ss[k], bs[k + 1]) {
        if k < |ss| - 1 {
          assert Evicts(t, hp, EntryBuckets(q, p, S)[k], EntrySlots(q, p, S)[k], EntryBuckets(q, p, S)[k + 1]);
        }
      }
    }
  }

  // ------------------------------------------------------- the path records

  datatype CuckooRecord = CuckooRecord(bucket: nat, slot: nat, hash: nat)

  /** The first depth records hold items of the given hashes, each evicting to the
      next record's bucket; the last slot is free; and no bucket occurs twice. */
  ghost predicate GoodPath<K, V>(h: K -> nat, t: Table<K, V>, hp: nat, i1: nat, i2: nat, path: seq<CuckooRecord>,
      depth: nat) {
    && depth < |path| && (path[0].bucket == i1 || path[0].bucket == i2)
    && (forall k :: 0 <= k < depth ==> RecordOk(h, t, hp, path, k))
    && InRange(t, path[depth].bucket, path[depth].slot) && t[path[depth].bucket][path[depth].slot].Free?
    && (forall j, k :: 0 <= j < k <= depth ==> path[j].bucket != path[k].bucket)
  }

  ghost predicate RecordOk<K, V>(h: K -> nat, t: Table<K, V>, hp: nat, path: seq<CuckooRecord>, k: nat)
    requires k + 1 < |path|
  {
    && Evicts(t, hp, path[k].bucket, path[k].slot, path[k + 1].bucket)
    && HashOf(h, t[path[k].bucket][path[k].slot].key) == path[k].hash
  }

  /** An item's stored partial is that of its key's hash. */
  lemma PartialIsCorrect<K, V>(h: K -> nat, hp: nat, S: nat, t: Table<K, V>, m: map<K, V>, pos: map<K, Pos>,
      i: nat, j: nat)
    requires Holds(h, hp, S, t, m, pos) && InRange(t, i, j) && t[i][j].Item?
    ensures t[i][j].partial == PartialKey(HashOf(h, t[i][j].key))
  {
    var k := t[i][j].key;
    assert Stored(h, hp, t, pos[k], k, m[k]);
  }

  /** The loop that reads the slots off the pathcode, from the end. */
  method DecodeSlots(pathcode: nat, depth: nat, S: nat) returns (slots: seq<nat>, rest: nat)
    requires S > 0
    ensures slots == Digits(pathcode, depth + 1, S) && rest == Rest(pathcode, depth + 1, S)
  {
    slots, rest := [], pathcode;
    var i: int := depth;
    while i >= 0
      invariant -1 <= i <= depth
      invariant Digits(pathcode, depth + 1, S) == Digits(rest, i + 1, S) + slots
      invariant Rest(pathcode, depth + 1, S) == Rest(rest, i + 1, S)
    {
      slots := [rest % S] + slots;
      rest := rest / S;
      i := i - 1;
    }
  }

  /** The slots that the code of a found entry decodes to. */
  lemma FoundDecodes<K, V>(t: Table<K, V>, hp: nat, S: nat, i1: nat, i2: nat, x: BSlot, q: seq<BSlot>, n: nat)
    requires Found(t, hp, S, i1, i2, x, q, n) && Shape(t, hp, S)
    ensures |EntrySlots(q, n, S)| == x.depth
    ensures Digits(x.pathcode, x.depth + 1, S) == EntrySlots(q, n, S) + [x.pathcode % S]
    ensures Rest(x.pathcode, x.depth + 1, S) == Root(n, S)
  {
    EntryPath(t, hp, S, i1, i2, q, n);
    var ss := EntrySlots(q, n, S);
    DecodeCode(Root(n, S), ss, S);
  }

  /** cuckoopath_search: a good path of minimal length, or -1 when no path of fewer
      than MAX_BFS_PATH_LEN evictions leads to room. */
  method CuckooPathSearch<K, V>(h: K -> nat, t: Table<K, V>, hp: nat, S: nat, i1: nat, i2: nat,
      ghost m: map<K, V>, ghost pos: map<K, Pos>)
    returns (depth: int, path: seq<CuckooRecord>)
    requires Holds(h, hp, S, t, m, pos) && 0 < S <= 8 && i1 < |t| && i2 < |t|
    ensures depth == -1 ==> NothingCloser(t, hp, i1, i2, MAX_BFS_PATH_LEN)
    ensures depth != -1 ==>
      0 <= depth < MAX_BFS_PATH_LEN && GoodPath(h, t, hp, i1, i2, path, depth) && NothingCloser(t, hp, i1, i2, depth)
  {
    var x, q, n := SlotSearch(t, hp, S, i1, i2);
    path := [];
    if x.depth == -1 { return -1, path; }
    assert LevelOk(S, q, n);
    EntryPath(t, hp, S, i1, i2, q, n);
    FoundDecodes(t, hp, S, i1, i2, x, q, n);
    ghost var bs, ss := EntryBuckets(q, n, S), EntrySlots(q, n, S) + [x.pathcode % S];
    EndHasRoom(t, x.bucket, x.pathcode % S);
    ShortestIsDistinct(t, hp, i1, i2, bs, EntrySlots(q, n, S));
    var slots, pathcode := DecodeSlots(x.pathcode, x.depth, S);
    depth, path := FollowPath(h, t, hp, S, if pathcode == 0 then i1 else i2, slots, x.depth, m, pos, bs);
  }

  lemma EndHasRoom<K, V>(t: Table<K, V>, b: nat, s: nat)
    requires InRange(t, b, s) && t[b][s].Free?
    ensures !Full(t[b])
  {
  }

  /** The second half of cuckoopath_search: the buckets and hashes along the path.
      Nothing has changed since the search, so it goes to the end. */
  method FollowPath<K, V>(h: K -> nat, t: Table<K, V>, hp: nat, S: nat, start: nat, slots: seq<nat>, x_depth: nat,
      ghost m: map<K, V>, ghost pos: map<K, Pos>, ghost bs: seq<nat>)
    returns (depth: nat, path: seq<CuckooRecord>)
    requires Holds(h, hp, S, t, m, pos) && |slots| == |bs| == x_depth + 1 && bs[0] == start
    requires forall k :: 0 <= k < x_depth ==> Evicts(t, hp, bs[k], slots[k], bs[k + 1])
    requires InRange(t, bs[x_depth], slots[x_depth]) && t[bs[x_depth]][slots[x_depth]].Free? && Distinct(bs)
    ensures depth == x_depth && GoodPath(h, t, hp, start, start, path, depth)
  {
    var first := CuckooRecord(start, slots[0], 0);
    assert x_depth > 0 ==> Evicts(t, hp, bs[0], slots[0], bs[1]);
    if t[first.bucket][first.slot].Free? {
      return 0, [first];
    }
    path := [first.(hash := HashOf(h, t[first.bucket][first.slot].key))];
    var i := 1;
    while i <= x_depth
      invariant 1 <= i <= x_depth && |path| == i
      invariant forall k :: 0 <= k < i ==> FollowsTo(h, t, path[k], bs[k], slots[k])
    {
      var prev := path[i - 1];
      assert FollowsTo(h, t, prev, bs[i - 1], slots[i - 1]) && Evicts(t, hp, bs[i - 1], slots[i - 1], bs[i]);
      PartialIsCorrect(h, hp, S, t, m, pos, bs[i - 1], slots[i - 1]);
      var curr := CuckooRecord(AltIndex(hp, PartialKey(prev.hash), prev.bucket), slots[i], 0);
      assert i < x_depth ==> Evicts(t, hp, bs[i], slots[i], bs[i + 1]);
      if t[curr.bucket][curr.slot].Free? {
        PathIsGood(h, t, hp, path, curr, bs, slots);
        return i, path + [curr];
      }
      path := path + [curr.(hash := HashOf(h, t[curr.bucket][curr.slot].key))];
      i := i + 1;
    }
    depth := x_depth;
  }

  /** Record r is at bucket b, slot s, and has the hash of the item there. */
  ghost predicate FollowsTo<K, V>(h: K -> nat, t: Table<K, V>, r: CuckooRecord, b: nat, s: nat) {
    r.bucket == b && r.slot == s && InRange(t, b, s) && t[b][s].Item? && r.hash == HashOf(h, t[b][s].key)
  }

  lemma PathIsGood<K, V>(h: K -> nat, t: Table<K, V>, hp: nat, path: seq<CuckooRecord>, end: CuckooRecord,
      bs: seq<nat>, slots: seq<nat>)
    requires |bs| == |slots| == |path| + 1 && Distinct(bs)
    requires forall k :: 0 <= k < |path| ==>
      FollowsTo(h, t, path[k], bs[k], slots[k]) && Evicts(t, hp, bs[k], slots[k], bs[k + 1])
    requires end.bucket == bs[|path|] && end.slot == slots[|path|] && InRange(t, end.bucket, end.slot)
      && t[end.bucket][end.slot].Free?
    ensures GoodPath(h, t, hp, bs[0], bs[0], path + [end], |path|)
  {
    var all := path + [end];
    forall k | 0 <= k < |all| ensures all[k].bucket == bs[k] && all[k].slot == slots[k] {
      if k < |path| { assert FollowsTo(h, t, path[k], bs[k], slots[k]); }
    }
    forall k | 0 <= k < |path| ensures RecordOk(h, t, hp, all, k) {
      assert FollowsTo(h, t, path[k], bs[k], slots[k]) && Evicts(t, hp, bs[k], slots[k], bs[k + 1]);
    }
  }

  // -------------------------------------------------------------- the moves

  /** Moving the last item of the path to the free slot leaves a path shorter by
      one, and everything the table stores. */
  lemma MoveAlong<K, V>(h: K -> nat, t: Table<K, V>, hp: nat, S: nat, i1: nat, i2: nat, path: seq<CuckooRecord>,
      depth: nat, m: map<K, V>, pos: map<K, Pos>)
    returns (pos': map<K, Pos>)
    requires Holds(h, hp, S, t, m, pos) && GoodPath(h, t, hp, i1, i2, path, depth) && depth > 0
    requires RecordOk(h, t, hp, path, depth - 1)
    ensures var from, to := path[depth - 1], path[depth];
      var t' := Store(Store(t, to.bucket, to.slot, t[from.bucket][from.slot]), from.bucket, from.slot, Free);
      Holds(h, hp, S, t', m, pos') && GoodPath(h, t', hp, i1, i2, path, depth - 1)
  {
    var from, to := path[depth - 1], path[depth];
    var t' := Store(Store(t, to.bucket, to.slot, t[from.bucket][from.slot]), from.bucket, from.slot, Free);
    MoveKeeps(h, hp, S, t, m, pos, Pos(from.bucket, from.slot), Pos(to.bucket, to.slot));
    pos' := pos[t[from.bucket][from.slot].key := Pos(to.bucket, to.slot)];
    forall k | 0 <= k < depth - 1 ensures RecordOk(h, t', hp, path, k) { assert RecordOk(h, t, hp, path, k); }
  }

  /** One turn of cuckoopath_move's loop. */
  method MoveOne<K, V>(h: K -> nat, c: BucketContainer<K, V>, ghost i1: nat, ghost i2: nat, path: seq<CuckooRecord>,
      depth: nat, ghost m: map<K, V>, ghost pos: map<K, Pos>)
    returns (moved: bool, ghost pos': map<K, Pos>)
    requires c.Valid() && Holds(h, c.hashpower, c.slot_per_bucket, c.buckets, m, pos) && depth > 0
    requires GoodPath(h, c.buckets, c.hashpower, i1, i2, path, depth)
    modifies c`buckets
    ensures moved && c.Valid() && Holds(h, c.hashpower, c.slot_per_bucket, c.buckets, m, pos')
    ensures GoodPath(h, c.buckets, c.hashpower, i1, i2, path, depth - 1)
  {
    var from, to := path[depth - 1], path[depth];
    assert RecordOk(h, c.buckets, c.hashpower, path, depth - 1);
    var fs := c.buckets[from.bucket][from.slot];
    ghost var t := c.buckets;
    if c.buckets[to.bucket][to.slot].Item? || fs.Free? || HashOf(h, fs.key) != from.hash {
      return false, pos;
    }
    c.SetKV(to.bucket, to.slot, fs.partial, fs.key, fs.value);
    c.EraseKV(from.bucket, from.slot);
    assert c.buckets == Store(Store(t, to.bucket, to.slot, t[from.bucket][from.slot]), from.bucket, from.slot, Free);
    pos' := MoveAlong(h, t, c.hashpower, c.slot_per_bucket, i1, i2, path, depth, m, pos);
    moved := true;
  }

  /** cuckoopath_move: with nobody else at work it always succeeds. */
  method CuckooPathMove<K, V>(h: K -> nat, c: BucketContainer<K, V>, ghost i1: nat, ghost i2: nat,
      path: seq<CuckooRecord>, depth: nat,
      ghost m: map<K, V>, ghost pos: map<K, Pos>)
    returns (moved: bool, ghost pos': map<K, Pos>)
    requires c.Valid() && Holds(h, c.hashpower, c.slot_per_bucket, c.buckets, m, pos)
    requires GoodPath(h, c.buckets, c.hashpower, i1, i2, path, depth)
    modifies c`buckets
    ensures c.Valid() && moved && Holds(h, c.hashpower, c.slot_per_bucket, c.buckets, m, pos')
    ensures InRange(c.buckets, path[0].bucket, path[0].slot) && c.buckets[path[0].bucket][path[0].slot].Free?
  {
    pos' := pos;
    if depth == 0 {
      return c.buckets[path[0].bucket][path[0].slot].Free?, pos';
    }
    var d := depth;
    while d > 0
      invariant 0 <= d <= depth && c.Valid() && Holds(h, c.hashpower, c.slot_per_bucket, c.buckets, m, pos')
      invariant GoodPath(h, c.buckets, c.hashpower, i1, i2, path, d)
    {
      moved, pos' := MoveOne(h, c, i1, i2, path, d, m, pos');
      if !moved { return; }
      d := d - 1;
    }
    moved := true;
  }

  /** run_cuckoo: on success a slot of one of the two insert buckets is free, after
      moves that leave the stored map as it is; and it succeeds on its first try
      whenever room can be reached with fewer than MAX_BFS_PATH_LEN evictions. */
  method RunCuckoo<K, V>(h: K -> nat, c: BucketContainer<K, V>, i1: nat, i2: nat, ghost m: map<K, V>,
      ghost pos: map<K, Pos>)
    returns (done: bool, insert_bucket: nat, insert_slot: nat, ghost pos': map<K, Pos>, ghost tries: nat)
    requires c.Valid() && Holds(h, c.hashpower, c.slot_per_bucket, c.buckets, m, pos)
    requires 0 < c.slot_per_bucket <= 8 && i1 < |c.buckets| && i2 < |c.buckets|
    modifies c`buckets
    ensures c.Valid() && Holds(h, c.hashpower, c.slot_per_bucket, c.buckets, m, pos') && tries == 1
    ensures done ==> (insert_bucket == i1 || insert_bucket == i2)
    ensures done ==> InRange(c.buckets, insert_bucket, insert_slot) && c.buckets[insert_bucket][insert_slot].Free?
    ensures !done <==> NothingCloser(old(c.buckets), c.hashpower, i1, i2, MAX_BFS_PATH_LEN)
    ensures !done ==> c.buckets == old(c.buckets)
  {
    done, insert_bucket, insert_slot, pos', tries := false, 0, 0, pos, 0;
    while !done
      invariant c.Valid() && Holds(h, c.hashpower, c.slot_per_bucket, c.buckets, m, pos')
      invariant if done then tries == 1 else tries == 0 && c.buckets == old(c.buckets)
      invariant done ==> (insert_bucket == i1 || insert_bucket == i2)
      invariant done ==> InRange(c.buckets, insert_bucket, insert_slot) && c.buckets[insert_bucket][insert_slot].Free?
      invariant done ==> !NothingCloser(old(c.buckets), c.hashpower, i1, i2, MAX_BFS_PATH_LEN)
      decreases if done then 0 else 1
    {
      tries := tries + 1;
      var depth, path := CuckooPathSearch(h, c.buckets, c.hashpower, c.slot_per_bucket, i1, i2, m, pos');
      if depth < 0 { return; }
      GoodPathHasRoom(h, c.buckets, c.hashpower, i1, i2, path, depth);
      var moved;
      moved, pos' := CuckooPathMove(h, c, i1, i2, path, depth, m, pos');
      if moved {
        insert_bucket, insert_slot := path[0].bucket, path[0].slot;
        done := true;
      }
    }
  }

  lemma GoodPathHasRoom<K, V>(h: K -> nat, t: Table<K, V>, hp: nat, i1: nat, i2: nat, path: seq<CuckooRecord>,
      depth: nat)
    requires GoodPath(h, t, hp, i1, i2, path, depth) && depth < MAX_BFS_PATH_LEN
    ensures !NothingCloser(t, hp, i1, i2, MAX_BFS_PATH_LEN)
  {
    var bs: seq<nat>, ss: seq<nat> := seq(depth + 1, k requires 0 <= k <= depth => path[k].bucket),
      seq(depth, k requires 0 <= k < depth => path[k].slot);
    forall k | 0 <= k < depth ensures Evicts(t, hp, bs[k], ss[k], bs[k + 1]) { assert RecordOk(h, t, hp, path, k); }
    assert Walk(t, hp, i1, i2, bs, ss);
    EndHasRoom(t, path[depth].bucket, path[depth].slot);
    assert bs[|ss|] == path[depth].bucket;
  }
}
