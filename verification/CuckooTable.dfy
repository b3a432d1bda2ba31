/**
 What a cuckoo table stores: a finite map, each key once, in one of its two
 candidate buckets, with its correct partial.  The searches within one bucket.
 */
module CuckooTable {
  import opened Modular
  import opened Buckets
  import opened CuckooHash

  datatype Pos = Pos(i: nat, j: nat)

  function HashOf<K>(h: K -> nat, k: K): nat { Hash64(h(k)) }

  predicate At<K, V>(t: Table<K, V>, p: Pos) { InRange(t, p.i, p.j) }

  /** Key k is stored at p, with value v. */
  predicate Stored<K(==), V(==)>(h: K -> nat, hp: nat, t: Table<K, V>, p: Pos, k: K, v: V) {
    && At(t, p) && t[p.i][p.j] == Item(PartialKey(HashOf(h, k)), k, v)
    && IsCandidate(hp, HashOf(h, k), p.i)
  }

  /** The table stores exactly the map m: key k at pos[k], and nothing else. */
  ghost predicate Holds<K, V>(h: K -> nat, hp: nat, S: nat, t: Table<K, V>, m: map<K, V>, pos: map<K, Pos>) {
    && Shape(t, hp, S) && pos.Keys == m.Keys
    && (forall k {:trigger Stored(h, hp, t, pos[k], k, m[k])} :: k in m ==> Stored(h, hp, t, pos[k], k, m[k]))
    && (forall i: nat, j: nat {:trigger InRange(t, i, j)} :: InRange(t, i, j) && t[i][j].Item? ==>
      t[i][j].key in m && pos[t[i][j].key] == Pos(i, j))
  }

  lemma EmptyHolds<K, V>(h: K -> nat, hp: nat, S: nat)
    ensures var m: map<K, V> := map[]; Holds(h, hp, S, Empty(hp, S), m, map[])
  {
  }

  lemma StoredAt<K, V>(h: K -> nat, hp: nat, S: nat, t: Table<K, V>, m: map<K, V>, pos: map<K, Pos>, k: K)
    requires Holds(h, hp, S, t, m, pos) && k in m
    ensures Stored(h, hp, t, pos[k], k, m[k])
  {
  }

  /** The position map is determined by the table. */
  lemma PosIsDetermined<K, V>(h: K -> nat, hp: nat, S: nat, t: Table<K, V>, m: map<K, V>, pos: map<K, Pos>,
      m': map<K, V>, pos': map<K, Pos>)
    requires Holds(h, hp, S, t, m, pos) && Holds(h, hp, S, t, m', pos')
    ensures m == m' && pos == pos'
  {
    forall k | k in m ensures k in m' && m'[k] == m[k] && pos'[k] == pos[k] {
      StoredAt(h, hp, S, t, m, pos, k);
      StoredAt(h, hp, S, t, m', pos', k);
    }
    forall k | k in m' ensures k in m { StoredAt(h, hp, S, t, m', pos', k); }
  }

  lemma InsertKeeps<K, V>(h: K -> nat, hp: nat, S: nat, t: Table<K, V>, m: map<K, V>, pos: map<K, Pos>,
      i: nat, j: nat, k: K, v: V)
    requires Holds(h, hp, S, t, m, pos) && k !in m && InRange(t, i, j) && t[i][j].Free?
      && IsCandidate(hp, HashOf(h, k), i)
    ensures Holds(h, hp, S, Store(t, i, j, Item(PartialKey(HashOf(h, k)), k, v)), m[k := v], pos[k := Pos(i, j)])
  {
    var t': Table<K, V> := Store(t, i, j, Item(PartialKey(HashOf(h, k)), k, v));
    forall x | x in m ensures Stored(h, hp, t', pos[x], x, m[x]) { StoredAt(h, hp, S, t, m, pos, x); }
    forall x: nat, y: nat | InRange(t', x, y) && t'[x][y].Item?
      ensures t'[x][y].key in m[k := v] && pos[k := Pos(i, j)][t'[x][y].key] == Pos(x, y)
    { assert InRange(t, x, y); }
  }

  lemma EraseKeeps<K, V>(h: K -> nat, hp: nat, S: nat, t: Table<K, V>, m: map<K, V>, pos: map<K, Pos>, k: K)
    requires Holds(h, hp, S, t, m, pos) && k in m && At(t, pos[k])
    ensures Holds(h, hp, S, Store(t, pos[k].i, pos[k].j, Free), m - {k}, pos - {k})
  {
    var t': Table<K, V> := Store(t, pos[k].i, pos[k].j, Free);
    StoredAt(h, hp, S, t, m, pos, k);
    forall x | x in m && x != k ensures Stored(h, hp, t', pos[x], x, m[x]) { StoredAt(h, hp, S, t, m, pos, x); }
    forall x: nat, y: nat | InRange(t', x, y) && t'[x][y].Item?
      ensures t'[x][y].key in m - {k} && pos[t'[x][y].key] == Pos(x, y)
    { assert InRange(t, x, y); }
  }

  lemma AssignKeeps<K, V>(h: K -> nat, hp: nat, S: nat, t: Table<K, V>, m: map<K, V>, pos: map<K, Pos>, k: K, v: V)
    requires Holds(h, hp, S, t, m, pos) && k in m && At(t, pos[k])
    ensures Holds(h, hp, S, Store(t, pos[k].i, pos[k].j, Item(PartialKey(HashOf(h, k)), k, v)), m[k := v], pos)
  {
    var t': Table<K, V> := Store(t, pos[k].i, pos[k].j, Item(PartialKey(HashOf(h, k)), k, v));
    StoredAt(h, hp, S, t, m, pos, k);
    forall x | x in m && x != k ensures Stored(h, hp, t', pos[x], x, m[x]) { StoredAt(h, hp, S, t, m, pos, x); }
    forall x: nat, y: nat | InRange(t', x, y) && t'[x][y].Item?
      ensures t'[x][y].key in m && pos[t'[x][y].key] == Pos(x, y)
    { assert InRange(t, x, y); }
  }

  /** Moving a key to a free slot of its other candidate bucket changes nothing
      that the table stores. */
  lemma MoveKeeps<K, V>(h: K -> nat, hp: nat, S: nat, t: Table<K, V>, m: map<K, V>, pos: map<K, Pos>,
      from: Pos, to: Pos)
    requires Holds(h, hp, S, t, m, pos) && At(t, from) && At(t, to) && t[from.i][from.j].Item? && t[to.i][to.j].Free?
    requires to.i == AltIndex(hp, t[from.i][from.j].partial, from.i)
    ensures var k := t[from.i][from.j].key;
      && k in m
      && Holds(h, hp, S, Store(Store(t, to.i, to.j, t[from.i][from.j]), from.i, from.j, Free), m, pos[k := to])
  {
    var k := t[from.i][from.j].key;
    var t': Table<K, V> := Store(Store(t, to.i, to.j, t[from.i][from.j]), from.i, from.j, Free);
    StoredAt(h, hp, S, t, m, pos, k);
    AltOfCandidate(hp, HashOf(h, k), from.i);
    MovedSlots(h, hp, S, t, m, pos, from, to, t');
    forall x | x in m && x != k ensures Stored(h, hp, t', pos[x], x, m[x]) { StoredAt(h, hp, S, t, m, pos, x); }
  }

  lemma MovedSlots<K, V>(h: K -> nat, hp: nat, S: nat, t: Table<K, V>, m: map<K, V>, pos: map<K, Pos>,
      from: Pos, to: Pos, t': Table<K, V>)
    requires Holds(h, hp, S, t, m, pos) && At(t, from) && At(t, to) && t[from.i][from.j].Item? && t[to.i][to.j].Free?
    requires t' == Store(Store(t, to.i, to.j, t[from.i][from.j]), from.i, from.j, Free)
    ensures forall x: nat, y: nat :: InRange(t', x, y) && t'[x][y].Item? ==>
      t'[x][y].key in m && pos[t[from.i][from.j].key := to][t'[x][y].key] == Pos(x, y)
  {
    forall x: nat, y: nat | InRange(t', x, y) && t'[x][y].Item?
      ensures t'[x][y].key in m && pos[t[from.i][from.j].key := to][t'[x][y].key] == Pos(x, y)
    { assert InRange(t, x, y); }
  }

  // ------------------------------------------------ searching in one bucket

  /** The source's test for "this slot holds the key"; small keys are compared
      without looking at the partial first. */
  predicate Matches<K(==), V>(s: Slot<K, V>, partial: nat, key: K, is_simple: bool) {
    s.Item? && (is_simple || s.partial == partial) && s.key == key
  }

  /** try_read_from_bucket. */
  method TryRead<K(==), V>(b: Bucket<K, V>, partial: nat, key: K, is_simple: bool) returns (slot: int)
    ensures -1 <= slot < |b|
    ensures slot >= 0 ==> Matches(b[slot], partial, key, is_simple)
    ensures forall j :: 0 <= j < slot ==> !Matches(b[j], partial, key, is_simple)
    ensures slot == -1 ==> forall j :: 0 <= j < |b| ==> !Matches(b[j], partial, key, is_simple)
  {
    var i := 0;
    while i < |b|
      invariant 0 <= i <= |b|
      invariant forall j :: 0 <= j < i ==> !Matches(b[j], partial, key, is_simple)
    {
      if !b[i].Item? || (!is_simple && partial != b[i].partial) {
      } else if b[i].key == key {
        return i;
      }
      i := i + 1;
    }
    return -1;
  }

  /** try_find_insert_bucket: false and the key's slot if the bucket has the key;
      otherwise true and the last free slot, or -1 if there is none. */
  method TryFindInsert<K(==), V>(b: Bucket<K, V>, partial: nat, key: K, is_simple: bool)
      returns (insertable: bool, slot: int)
    ensures -1 <= slot < |b|
    ensures !insertable <==> exists j :: 0 <= j < |b| && Matches(b[j], partial, key, is_simple)
    ensures !insertable ==> slot >= 0 && Matches(b[slot], partial, key, is_simple)
    ensures insertable && slot >= 0 ==> b[slot].Free?
    ensures insertable ==> forall j :: slot < j < |b| ==> b[j].Item?
  {
    slot := -1;
    var i := 0;
    while i < |b|
      invariant 0 <= i <= |b| && -1 <= slot < i
      invariant forall j :: 0 <= j < i ==> !Matches(b[j], partial, key, is_simple)
      invariant slot >= 0 ==> b[slot].Free?
      invariant forall j :: slot < j < i ==> b[j].Item?
    {
      if b[i].Item? {
        if !is_simple && partial != b[i].partial {
        } else if b[i].key == key {
          return false, i;
        }
      } else {
        slot := i;
      }
      i := i + 1;
    }
    insertable := true;
  }

  /** In a table that holds m, a match is the key, at its place; and the key can
      only be in its two candidate buckets. */
  lemma MatchIsKey<K, V>(h: K -> nat, hp: nat, S: nat, t: Table<K, V>, m: map<K, V>, pos: map<K, Pos>,
      i: nat, j: nat, key: K, is_simple: bool)
    requires Holds(h, hp, S, t, m, pos) && InRange(t, i, j)
    ensures Matches(t[i][j], PartialKey(HashOf(h, key)), key, is_simple) <==> key in m && pos[key] == Pos(i, j)
  {
    if key in m { StoredAt(h, hp, S, t, m, pos, key); }
  }

  lemma KeyIsInCandidate<K, V>(h: K -> nat, hp: nat, S: nat, t: Table<K, V>, m: map<K, V>, pos: map<K, Pos>, key: K)
    requires Holds(h, hp, S, t, m, pos) && key in m
    ensures At(t, pos[key]) && IsCandidate(hp, HashOf(h, key), pos[key].i)
  {
    StoredAt(h, hp, S, t, m, pos, key);
  }

  /** cuckoo_find: the key's place, exactly when the map has the key. */
  method CuckooFind<K(==), V>(t: Table<K, V>, key: K, partial: nat, i1: nat, i2: nat, is_simple: bool,
      ghost h: K -> nat, ghost hp: nat, ghost S: nat, ghost m: map<K, V>, ghost pos: map<K, Pos>)
    returns (found: bool, index: nat, slot: nat)
    requires Holds(h, hp, S, t, m, pos) && partial == PartialKey(HashOf(h, key))
    requires i1 == First(hp, HashOf(h, key)) && i2 == Second(hp, HashOf(h, key)) && i1 < |t| && i2 < |t|
    ensures found <==> key in m
    ensures found ==> pos[key] == Pos(index, slot) && Stored(h, hp, t, pos[key], key, m[key])
  {
    found, index, slot := false, 0, 0;
    if key in m { KeyIsInCandidate(h, hp, S, t, m, pos, key); }
    var s := TryRead(t[i1], partial, key, is_simple);
    forall j: nat | j < |t[i1]|
      ensures Matches(t[i1][j], partial, key, is_simple) <==> key in m && pos[key] == Pos(i1, j)
    { MatchIsKey(h, hp, S, t, m, pos, i1, j, key, is_simple); }
    if s != -1 { return true, i1, s; }
    s := TryRead(t[i2], partial, key, is_simple);
    forall j: nat | j < |t[i2]|
      ensures Matches(t[i2][j], partial, key, is_simple) <==> key in m && pos[key] == Pos(i2, j)
    { MatchIsKey(h, hp, S, t, m, pos, i2, j, key, is_simple); }
    if s != -1 { return true, i2, s; }
  }

  // ------------------------------------------------- what fits in a table

  /** The candidate buckets of some keys. */
  ghost function BucketsOf<K>(h: K -> nat, hp: nat, ks: set<K>): set<nat> {
    (set k | k in ks :: First(hp, HashOf(h, k))) + (set k | k in ks :: Second(hp, HashOf(h, k)))
  }

  /** Some of the keys outnumber the slots of their candidate buckets. */
  ghost predicate Overfull<K>(h: K -> nat, hp: nat, S: nat, keys: set<K>) {
    exists ks: set<K> :: ks <= keys && |ks| > |BucketsOf(h, hp, ks)| * S
  }

  /** What a table stores is never that. */
  lemma StoredIsNotOverfull<K, V>(h: K -> nat, hp: nat, S: nat, t: Table<K, V>, m: map<K, V>, pos: map<K, Pos>)
    requires Holds(h, hp, S, t, m, pos)
    ensures !Overfull(h, hp, S, m.Keys)
  {
    forall ks: set<K> | ks <= m.Keys ensures |ks| <= |BucketsOf(h, hp, ks)| * S {
      KeysFitTheirBuckets(h, hp, S, t, m, pos, ks);
    }
  }

  lemma KeysFitTheirBuckets<K, V>(h: K -> nat, hp: nat, S: nat, t: Table<K, V>, m: map<K, V>, pos: map<K, Pos>,
      ks: set<K>)
    requires Holds(h, hp, S, t, m, pos) && ks <= m.Keys
    ensures |ks| <= |BucketsOf(h, hp, ks)| * S
  {
    var bs := BucketsOf(h, hp, ks);
    forall k | k in ks ensures pos[k] in SlotsIn(bs, S) { StoredAt(h, hp, S, t, m, pos, k); }
    SlotsInSize(bs, S);
    Injective(ks, pos, SlotsIn(bs, S), t, h, hp, m);
  }

  /** At any hashpower, at most two buckets' worth of keys share a hash: with
      more of them, no amount of doubling makes room. */
  lemma KeysOfOneHash<K, V>(h: K -> nat, hp: nat, S: nat, t: Table<K, V>, m: map<K, V>, pos: map<K, Pos>,
      ks: set<K>, hash: nat)
    requires Holds(h, hp, S, t, m, pos) && ks <= m.Keys && forall k :: k in ks ==> HashOf(h, k) == hash
    ensures |ks| <= 2 * S
  {
    KeysFitTheirBuckets(h, hp, S, t, m, pos, ks);
    FewBuckets(BucketsOf(h, hp, ks), First(hp, hash), Second(hp, hash), S);
  }

  /** Two buckets have 2 S slots. */
  lemma FewBuckets(bs: set<nat>, b1: nat, b2: nat, S: nat)
    requires bs <= {b1, b2}
    ensures |bs| * S <= 2 * S
  {
    var rest := {b1, b2} - bs;
    assert {b1, b2} == bs + rest;
    assert |{b1, b2}| <= 2;
    MulMono(|bs|, 2, S);
  }

  ghost function SlotsIn(bs: set<nat>, S: nat): set<Pos> { set i, j | i in bs && 0 <= j < S :: Pos(i, j) }

  lemma {:induction false} SlotsInSize(bs: set<nat>, S: nat)
    ensures |SlotsIn(bs, S)| == |bs| * S
    decreases bs
  {
    if bs == {} {
      assert SlotsIn(bs, S) == {};
    } else {
      var b :| b in bs;
      SlotsInSize(bs - {b}, S);
      OneBucketMore(bs, b, S);
      assert (|bs| - 1) * S + S == |bs| * S;
    }
  }

  lemma OneBucketMore(bs: set<nat>, b: nat, S: nat)
    requires b in bs
    ensures |SlotsIn(bs, S)| == |SlotsIn(bs - {b}, S)| + S && |bs - {b}| == |bs| - 1
  {
    var rest, slots := SlotsIn(bs - {b}, S), SlotsOf(b, S);
    forall p: Pos ensures p in SlotsIn(bs, S) <==> p in rest + slots {}
    assert SlotsIn(bs, S) == rest + slots;
    assert rest !! slots;
  }

  function SlotsOf(i: nat, S: nat): (r: set<Pos>)
    ensures |r| == S && forall p :: p in r <==> p.i == i && p.j < S
  {
    if S == 0 then {} else
      var r := SlotsOf(i, S - 1);
      assert Pos(i, S - 1) !in r;
      r + {Pos(i, S - 1)}
  }

  lemma {:induction false} Injective<K, V>(ks: set<K>, pos: map<K, Pos>, slots: set<Pos>, t: Table<K, V>,
      h: K -> nat, hp: nat, m: map<K, V>)
    requires forall k :: k in ks ==> k in pos && k in m && pos[k] in slots && Stored(h, hp, t, pos[k], k, m[k])
    ensures |ks| <= |slots|
    decreases ks
  {
    if ks != {} {
      var k :| k in ks;
      forall x | x in ks - {k} ensures pos[x] in slots - {pos[k]} {
        assert Stored(h, hp, t, pos[x], x, m[x]) && Stored(h, hp, t, pos[k], k, m[k]);
      }
      Injective(ks - {k}, pos, slots - {pos[k]}, t, h, hp, m);
    }
  }

  /** Those of the keys that may be in bucket b. */
  ghost function Candidates<K>(h: K -> nat, hp: nat, keys: set<K>, b: nat): set<K> {
    set k | k in keys && IsCandidate(hp, HashOf(h, k), b)
  }

  /** The other keys are enough to fill both of k's candidate buckets. */
  ghost predicate Crowded<K>(h: K -> nat, hp: nat, S: nat, keys: set<K>, k: K) {
    && |Candidates(h, hp, keys - {k}, First(hp, HashOf(h, k)))| >= S
    && |Candidates(h, hp, keys - {k}, Second(hp, HashOf(h, k)))| >= S
  }

  lemma CrowdedByMore<K>(h: K -> nat, hp: nat, S: nat, keys: set<K>, more: set<K>, k: K)
    requires Crowded(h, hp, S, keys, k) && keys <= more
    ensures Crowded(h, hp, S, more, k)
  {
    var b1, b2 := First(hp, HashOf(h, k)), Second(hp, HashOf(h, k));
    SubsetSize(Candidates(h, hp, keys - {k}, b1), Candidates(h, hp, more - {k}, b1));
    SubsetSize(Candidates(h, hp, keys - {k}, b2), Candidates(h, hp, more - {k}, b2));
  }

  lemma SubsetSize<T>(a: set<T>, b: set<T>)
    requires a <= b
    ensures |a| <= |b|
  {
    assert b == a + (b - a);
  }

  /** The keys in the first n slots of a bucket. */
  ghost function KeysIn<K, V>(b: Bucket<K, V>, n: nat): set<K>
    requires n <= |b|
  {
    set j | 0 <= j < n && b[j].Item? :: b[j].key
  }

  lemma {:induction false} KeysInCount<K, V>(h: K -> nat, hp: nat, S: nat, t: Table<K, V>, m: map<K, V>,
      pos: map<K, Pos>, i: nat, n: nat)
    requires Holds(h, hp, S, t, m, pos) && i < |t| && n <= |t[i]| && Full(t[i])
    ensures |KeysIn(t[i], n)| == n
  {
    if n > 0 {
      KeysInCount(h, hp, S, t, m, pos, i, n - 1);
      assert InRange(t, i, n - 1);
      forall j: nat | j < n - 1 ensures t[i][j].key != t[i][n - 1].key { assert InRange(t, i, j); }
      assert KeysIn(t[i], n) == KeysIn(t[i], n - 1) + {t[i][n - 1].key};
    }
  }

  /** A full bucket is filled by keys that it is a candidate of. */
  lemma FullBucketKeys<K, V>(h: K -> nat, hp: nat, S: nat, t: Table<K, V>, m: map<K, V>, pos: map<K, Pos>, i: nat)
    requires Holds(h, hp, S, t, m, pos) && i < |t| && Full(t[i])
    ensures |Candidates(h, hp, m.Keys, i)| >= S
  {
    KeysInCount(h, hp, S, t, m, pos, i, S);
    forall k | k in KeysIn(t[i], S) ensures k in Candidates(h, hp, m.Keys, i) {
      var j :| 0 <= j < S && t[i][j].Item? && t[i][j].key == k;
      assert InRange(t, i, j);
      StoredAt(h, hp, S, t, m, pos, k);
    }
    SubsetSize(KeysIn(t[i], S), Candidates(h, hp, m.Keys, i));
  }
}
