/**
 The cuckoo map's storage: 2^hashpower buckets of a fixed number of slots, each
 slot free or holding a key-value pair with the key's partial.
 */
module Buckets {
  import opened Modular

  /** occupied, partials and values of one slot; a free slot has none. */
  datatype Slot<K, V> = Free | Item(partial: nat, key: K, value: V)

  type Bucket<K, V> = seq<Slot<K, V>>
  type Table<K, V> = seq<seq<Slot<K, V>>>

  predicate Shape<K, V>(t: Table<K, V>, hp: nat, S: nat) {
    |t| == Pow2(hp) && forall i :: 0 <= i < |t| ==> |t[i]| == S
  }

  predicate InRange<K, V>(t: Table<K, V>, i: nat, j: nat) { i < |t| && j < |t[i]| }

  predicate Full<K, V>(b: Bucket<K, V>) { forall j :: 0 <= j < |b| ==> b[j].Item? }

  function Store<K, V>(t: Table<K, V>, i: nat, j: nat, s: Slot<K, V>): (r: Table<K, V>)
    requires InRange(t, i, j)
    ensures |r| == |t| && forall x :: 0 <= x < |t| ==> |r[x]| == |t[x]|
    ensures forall x: nat, y: nat :: InRange(t, x, y) ==> r[x][y] == if x == i && y == j then s else t[x][y]
  {
    t[i := t[i][j := s]]
  }

  function Empty<K, V>(hp: nat, S: nat): (r: Table<K, V>)
    ensures Shape(r, hp, S) && forall x: nat, y: nat :: InRange(r, x, y) ==> r[x][y] == Free
  {
    seq(Pow2(hp), _ => seq(S, _ => Free))
  }

  lemma SameTable<K, V>(a: Table<K, V>, b: Table<K, V>)
    requires |a| == |b| && forall i :: 0 <= i < |a| ==> |a[i]| == |b[i]|
    requires forall x: nat, y: nat :: InRange(a, x, y) ==> a[x][y] == b[x][y]
    ensures a == b
  {
    forall i | 0 <= i < |a| ensures a[i] == b[i] {
      forall y | 0 <= y < |a[i]| ensures a[i][y] == b[i][y] { assert InRange(a, i, y); }
    }
  }

  class BucketContainer<K, V> {
    const slot_per_bucket: nat
    var hashpower: nat
    var buckets: Table<K, V>

    ghost predicate Valid()
      reads `hashpower, `buckets
    {
      Shape(buckets, hashpower, slot_per_bucket)
    }

    constructor (hp: nat, S: nat)
      ensures Valid() && hashpower == hp && slot_per_bucket == S && buckets == Empty(hp, S)
    {
      slot_per_bucket, hashpower, buckets := S, hp, Empty(hp, S);
    }

    /** setKV: constructs live data in a free slot. */
    method SetKV(ind: nat, slot: nat, p: nat, k: K, v: V)
      requires Valid() && InRange(buckets, ind, slot) && buckets[ind][slot].Free?
      modifies this`buckets
      ensures Valid() && buckets == Store(old(buckets), ind, slot, Item(p, k, v))
    {
      buckets := buckets[ind := buckets[ind][slot := Item(p, k, v)]];
    }

    /** eraseKV: destroys live data. */
    method EraseKV(ind: nat, slot: nat)
      requires Valid() && InRange(buckets, ind, slot) && buckets[ind][slot].Item?
      modifies this`buckets
      ensures Valid() && buckets == Store(old(buckets), ind, slot, Free)
    {
      buckets := buckets[ind := buckets[ind][slot := Free]];
    }

    /** clear: every live slot is erased. */
    method Clear()
      requires Valid()
      modifies this`buckets
      ensures Valid() && buckets == Empty(hashpower, slot_per_bucket)
    {
      var i := 0;
      while i < |buckets|
        invariant i <= |buckets| && Valid()
        invariant forall x: nat, y: nat :: InRange(buckets, x, y) && x < i ==> buckets[x][y] == Free
      {
        ClearBucket(i);
        i := i + 1;
      }
      SameTable(buckets, Empty(hashpower, slot_per_bucket));
    }

    method ClearBucket(i: nat)
      requires Valid() && i < |buckets|
      modifies this`buckets
      ensures Valid() && |buckets| == old(|buckets|)
      ensures forall x: nat, y: nat :: InRange(buckets, x, y) ==>
        buckets[x][y] == if x == i then Free else old(buckets)[x][y]
    {
      ghost var was := buckets;
      var j := 0;
      while j < slot_per_bucket
        invariant j <= slot_per_bucket && Valid() && |buckets| == |was|
        invariant forall x: nat, y: nat :: InRange(buckets, x, y) ==>
          buckets[x][y] == if x == i && y < j then Free else was[x][y]
      {
        if buckets[i][j].Item? { EraseKV(i, j); }
        j := j + 1;
      }
    }

    /** swap: the two containers exchange hashpower and buckets. */
    method Swap(other: BucketContainer<K, V>)
      requires Valid() && other.Valid() && other.slot_per_bucket == slot_per_bucket
      modifies this, other
      ensures Valid() && other.Valid()
      ensures hashpower == old(other.hashpower) && buckets == old(other.buckets)
      ensures other.hashpower == old(hashpower) && other.buckets == old(buckets)
    {
      var hp, bs := other.hashpower, other.buckets;
      other.hashpower, other.buckets := hashpower, buckets;
      hashpower, buckets := hp, bs;
    }
  }
}
