/**
 The profiler's integer hash table: open addressing with linear probing over an
 array whose size is a power of two, grown when it is more than two thirds full.
 A key of 0 marks a free slot.  There is no removal.
 */
module HashTable {
  import opened Modular
  import Bits

  const RMT_NOT_FOUND: nat := 0xFFFF_FFFF

  datatype HashSlot = HashSlot(key: nat, value: nat)

  const FREE: HashSlot := HashSlot(0, 0)

  /** The probe sequence of a key in a table of n slots. */
  function Probe(key: nat, d: nat, n: nat): (i: nat)
    requires n > 0
    ensures i < n
  {
    (key % n + d) % n
  }

  lemma ProbeStart(key: nat, n: nat)
    requires n > 0
    ensures Probe(key, 0, n) == key % n
  {
    DivUnique(key % n, 0, key % n, n);
  }

  lemma ProbeNext(key: nat, d: nat, n: nat)
    requires n > 0
    ensures Probe(key, d + 1, n) == (Probe(key, d, n) + 1) % n
  {
    ModShift(key % n + d, 1, n);
  }

  /** The source masks with the size less one, the size being a power of two. */
  lemma MaskedStart(key: nat, log: nat)
    ensures Bits.And(key, Pow2(log) - 1) == Probe(key, 0, Pow2(log))
  {
    Bits.AndMask(key, log);
    ProbeStart(key, Pow2(log));
  }

  lemma MaskedNext(key: nat, d: nat, log: nat)
    ensures Bits.And(Probe(key, d, Pow2(log)) + 1, Pow2(log) - 1) == Probe(key, d + 1, Pow2(log))
  {
    Bits.AndMask(Probe(key, d, Pow2(log)) + 1, log);
    ProbeNext(key, d, Pow2(log));
  }

  /** A probe sequence visits every slot. */
  lemma ProbeReaches(key: nat, i: nat, n: nat) returns (d: nat)
    requires i < n
    ensures d < n && Probe(key, d, n) == i
  {
    var h := key % n;
    if h <= i {
      d := i - h;
      DivUnique(i, 0, i, n);
    } else {
      d := i + n - h;
      DivUnique(i + n, 1, i, n);
    }
  }

  /** The table holds exactly `contents`: key k is dist[k] probes from its home,
      past occupied slots only, and nothing else is occupied. */
  ghost predicate Holds(slots: seq<HashSlot>, contents: map<nat, nat>, dist: map<nat, nat>) {
    && dist.Keys == contents.Keys && 0 !in contents
    && (forall k :: k in contents ==>
      dist[k] < |slots| && slots[Probe(k, dist[k], |slots|)] == HashSlot(k, contents[k]))
    && (forall k, d: nat :: k in contents && d < dist[k] ==> slots[Probe(k, d, |slots|)].key != 0)
    && (forall i :: 0 <= i < |slots| && slots[i].key != 0 ==>
         slots[i].key in contents && Probe(slots[i].key, dist[slots[i].key], |slots|) == i)
  }

  /** The keys in slots 0, ..., n - 1. */
  ghost function KeysUpTo(slots: seq<HashSlot>, n: nat): (r: set<nat>)
    requires n <= |slots|
    ensures forall k :: k in r <==> exists i :: 0 <= i < n && slots[i].key == k
  {
    if n == 0 then {} else KeysUpTo(slots, n - 1) + {slots[n - 1].key}
  }

  lemma {:induction false} DistinctKeysCount(slots: seq<HashSlot>, n: nat)
    requires n <= |slots| && forall i, j :: 0 <= i < j < n ==> slots[i].key != slots[j].key
    ensures |KeysUpTo(slots, n)| == n
  {
    if n > 0 { DistinctKeysCount(slots, n - 1); }
  }

  lemma SubsetSize<T>(a: set<T>, b: set<T>)
    requires a <= b
    ensures |a| <= |b|
  {
    assert b == a + (b - a);
  }

  lemma AllOccupiedCount(slots: seq<HashSlot>, contents: map<nat, nat>, dist: map<nat, nat>)
    requires Holds(slots, contents, dist) && forall i :: 0 <= i < |slots| ==> slots[i].key != 0
    ensures |contents| >= |slots|
  {
    DistinctKeysCount(slots, |slots|);
    SubsetSize(KeysUpTo(slots, |slots|), contents.Keys);
    assert |contents| == |contents.Keys|;
  }

  /** With fewer keys than slots there is a free slot. */
  lemma FreeSlotExists(slots: seq<HashSlot>, contents: map<nat, nat>, dist: map<nat, nat>) returns (i: nat)
    requires Holds(slots, contents, dist) && |contents| < |slots|
    ensures i < |slots| && slots[i].key == 0
  {
    if forall i :: 0 <= i < |slots| ==> slots[i].key != 0 { AllOccupiedCount(slots, contents, dist); }
    i :| 0 <= i < |slots| && slots[i].key == 0;
  }

  /** ... and every probe sequence comes to one. */
  lemma ProbeEnds(slots: seq<HashSlot>, contents: map<nat, nat>, dist: map<nat, nat>, key: nat) returns (d: nat)
    requires Holds(slots, contents, dist) && |contents| < |slots|
    ensures d < |slots| && slots[Probe(key, d, |slots|)].key == 0
  {
    var i := FreeSlotExists(slots, contents, dist);
    d := ProbeReaches(key, i, |slots|);
  }

  /** The probe for key stops after d slots: it has found the key or a free slot. */
  ghost predicate StopsAt(slots: seq<HashSlot>, key: nat, d: nat) {
    && d < |slots|
    && (slots[Probe(key, d, |slots|)].key == 0 || slots[Probe(key, d, |slots|)].key == key)
    && forall e: nat :: e < d ==> slots[Probe(key, e, |slots|)].key != 0 && slots[Probe(key, e, |slots|)].key != key
  }

  /** A probe that has reached a free slot past occupied ones has missed the key. */
  lemma ProbeMisses(slots: seq<HashSlot>, contents: map<nat, nat>, dist: map<nat, nat>, key: nat, d: nat)
    requires Holds(slots, contents, dist) && key != 0 && StopsAt(slots, key, d)
    requires slots[Probe(key, d, |slots|)].key == 0
    ensures key !in contents
  {
    forall k | k in contents ensures k != key { assert slots[Probe(k, dist[k], |slots|)].key == k; }
  }

  /** Writing key and value into the slot where the probe stopped. */
  lemma PlaceKeeps(slots: seq<HashSlot>, contents: map<nat, nat>, dist: map<nat, nat>, key: nat, value: nat, d: nat)
    requires Holds(slots, contents, dist) && key != 0 && StopsAt(slots, key, d)
    ensures slots[Probe(key, d, |slots|)].key == key <==> key in contents
    ensures Holds(slots[Probe(key, d, |slots|) := HashSlot(key, value)], contents[key := value], dist[key := d])
  {
    var i := Probe(key, d, |slots|);
    if slots[i].key == 0 { ProbeMisses(slots, contents, dist, key, d); }
    assert forall k :: k in contents ==> slots[Probe(k, dist[k], |slots|)].key == k;
  }

  lemma UpdateSize(contents: map<nat, nat>, key: nat, value: nat)
    ensures |contents[key := value]| == |contents| + (if key in contents then 0 else 1)
  {
    assert contents[key := value].Keys == contents.Keys + {key};
    assert |contents[key := value]| == |contents[key := value].Keys| && |contents| == |contents.Keys|;
  }

  /** The source's limit: a table of n slots is resized above this many keys. */
  function Limit(n: nat): nat { n * 2 / 3 }

  function Grown(n: nat): nat { if n < 8192 * 4 then n * 4 else n * 2 }

  /** After growing, all the keys that forced it fit below the new limit. */
  lemma GrownHasRoom(n: nat)
    requires n > 0
    ensures Limit(n) + 1 <= Limit(Grown(n)) && Limit(n) < n
  {
  }

  class HashTable {
    var max_nb_slots: nat
    var nb_slots: nat
    var slots: array<HashSlot>
    ghost var log_size: nat               // max_nb_slots is this power of two
    ghost var contents: map<nat, nat>     // what the table maps each key to
    ghost var dist: map<nat, nat>         // how far each key is from its home slot

    /** The slots hold the contents, whatever the load. */
    ghost predicate Table()
      reads this, slots
    {
      && max_nb_slots == slots.Length == Pow2(log_size)
      && Holds(slots[..], contents, dist)
      && nb_slots == |contents|
    }

    ghost predicate Valid()
      reads this, slots
    {
      Table() && nb_slots <= Limit(max_nb_slots)
    }

    constructor (log: nat)
      ensures Valid() && fresh(slots) && contents == map[] && max_nb_slots == Pow2(log)
    {
      max_nb_slots, nb_slots := Pow2(log), 0;
      slots := new HashSlot[Pow2(log)](_ => FREE);
      log_size, contents, dist := log, map[], map[];
    }

    /** The probe loop of Insert and Find: it ends because a slot is free. */
    method FindSlot(key: nat) returns (index: nat, ghost d: nat)
      requires Table() && nb_slots < max_nb_slots && key != 0
      ensures StopsAt(slots[..], key, d) && index == Probe(key, d, slots.Length)
    {
      ghost var last := ProbeEnds(slots[..], contents, dist, key);
      index, d := ProbeLoop(key, last);
    }

    /** ... at the latest after `last` turns. */
    method ProbeLoop(key: nat, ghost last: nat) returns (index: nat, ghost d: nat)
      requires max_nb_slots == slots.Length == Pow2(log_size)
      requires last < slots.Length && slots[Probe(key, last, slots.Length)].key == 0
      ensures StopsAt(slots[..], key, d) && index == Probe(key, d, slots.Length)
    {
      index := Mask(key);
      d := 0;
      MaskedStart(key, log_size);
      while slots[index].key != 0 && slots[index].key != key
        invariant d <= last && index == Probe(key, d, slots.Length)
        invariant forall e: nat :: e < d ==>
          slots[Probe(key, e, slots.Length)].key != 0 && slots[Probe(key, e, slots.Length)].key != key
        decreases last - d
      {
        MaskedNext(key, d, log_size);
        index := Mask(index + 1);
        d := d + 1;
      }
    }

    /** A number with the source's index_mask. */
    method Mask(x: nat) returns (index: nat)
      requires max_nb_slots > 0
      ensures index == Bits.And(x, max_nb_slots - 1)
    {
      var index_mask := max_nb_slots - 1;
      index := Bits.And(x, index_mask);
    }

    /** The write at the slot where the probe stopped. */
    method Place(index: nat, key: nat, value: nat, ghost d: nat)
      requires Table() && key != 0 && StopsAt(slots[..], key, d) && index == Probe(key, d, slots.Length)
      modifies this, slots
      ensures Table() && contents == old(contents)[key := value]
      ensures slots == old(slots) && max_nb_slots == old(max_nb_slots)
      ensures nb_slots == old(nb_slots) + (if key in old(contents) then 0 else 1)
    {
      PlaceKeeps(slots[..], contents, dist, key, value, d);
      UpdateSize(contents, key, value);
      Write(index, key, value, contents[key := value], dist[key := d]);
    }

    /** ... and the count of occupied slots.  The contents it leads to are given. */
    method Write(index: nat, key: nat, value: nat, ghost contents': map<nat, nat>, ghost dist': map<nat, nat>)
      requires max_nb_slots == slots.Length == Pow2(log_size) && index < slots.Length
      requires Holds(slots[..][index := HashSlot(key, value)], contents', dist')
      requires |contents'| == nb_slots + (if slots[index].key == key then 0 else 1) && nb_slots <= |contents'|
      requires slots[index].key == key ==> nb_slots > 0
      modifies this, slots
      ensures Table() && contents == contents' && slots == old(slots) && max_nb_slots == old(max_nb_slots)
    {
      if slots[index].key == key {
        nb_slots := nb_slots - 1;
      }
      nb_slots := nb_slots + 1;
      ghost var s := slots[..][index := HashSlot(key, value)];
      slots[index] := HashSlot(key, value);
      assert slots[..] == s;
      contents, dist := contents', dist';
    }

    /** rmtHashTable_Insert.  `resizes` is bookkeeping: how many resizes this call
        may set off; 0 when it comes from a resize itself. */
    method Insert(key: nat, value: nat, ghost resizes: nat := 1)
      requires Table() && nb_slots <= Limit(max_nb_slots) && key != 0
      requires resizes > 0 || nb_slots + 1 <= Limit(max_nb_slots)
      modifies this, slots
      ensures Valid()
      ensures contents == old(contents)[key := value]
      ensures slots == old(slots) || fresh(slots)
      ensures resizes == 0 ==> slots == old(slots) && max_nb_slots == old(max_nb_slots)
      decreases resizes, 0
    {
      GrownHasRoom(max_nb_slots);
      var index, d := FindSlot(key);
      Place(index, key, value, d);
      if nb_slots > max_nb_slots * 2 / 3 {
        Resize(resizes - 1);
      }
    }

    /** One turn of Resize's loop: never sets off another resize, because the
        keys put back so far are some of the old ones. */
    method Reinsert(slot: HashSlot, ghost all: map<nat, nat>)
      requires Valid() && |all| <= Limit(max_nb_slots)
      requires forall k :: k in contents ==> k in all && contents[k] == all[k]
      requires slot.key != 0 ==> slot.key in all && all[slot.key] == slot.value && slot.key !in contents
      modifies this, slots
      ensures Valid() && slots == old(slots) && max_nb_slots == old(max_nb_slots)
      ensures contents == if slot.key == 0 then old(contents) else old(contents)[slot.key := slot.value]
      decreases 0, 1
    {
      if slot.key != 0 {
        RoomForOneMore(contents, all, slot.key);
        Insert(slot.key, slot.value, 0);
      }
    }

    /** rmtHashTable_Resize: reinserting never sets off another resize. */
    method Resize(ghost resizes: nat)
      requires Table() && max_nb_slots > 0 && nb_slots == Limit(max_nb_slots) + 1
      modifies this
      ensures Valid() && fresh(slots) && contents == old(contents)
      ensures max_nb_slots == Grown(old(max_nb_slots))
      decreases resizes, 2
    {
      var old_max_nb_slots, old_slots := max_nb_slots, slots;
      ghost var all, was, was_dist := contents, slots[..], dist;
      StartAgain();
      var i := 0;
      while i < old_max_nb_slots
        invariant i <= old_max_nb_slots == old_slots.Length && old_slots[..] == was
        invariant Valid() && fresh(slots) && max_nb_slots == Grown(old_max_nb_slots)
        invariant PutBack(was, all, contents, i)
      {
        assert old_slots[i] == was[i];
        KeysDistinct(was, all, was_dist, i);
        PutBackNext(was, all, was_dist, contents, i);
        Reinsert(old_slots[i], all);
        i := i + 1;
      }
      AllReinserted(was, all, was_dist, contents);
    }

    /** The new, empty table of a resize. */
    method StartAgain()
      requires max_nb_slots == Pow2(log_size)
      modifies this
      ensures Valid() && fresh(slots) && contents == map[] && max_nb_slots == Grown(old(max_nb_slots))
    {
      assert Pow2(log_size + 2) == 4 * Pow2(log_size) && Pow2(log_size + 1) == 2 * Pow2(log_size);
      log_size := if max_nb_slots < 8192 * 4 then log_size + 2 else log_size + 1;
      var new_max_nb_slots := if max_nb_slots < 8192 * 4 then max_nb_slots * 4 else max_nb_slots * 2;
      slots := new HashSlot[new_max_nb_slots](_ => FREE);
      max_nb_slots, nb_slots, contents, dist := new_max_nb_slots, 0, map[], map[];
    }

    /** rmtHashTable_Find. */
    method Find(key: nat) returns (value: nat)
      requires Valid() && key != 0
      ensures value == if key in contents then contents[key] else RMT_NOT_FOUND
    {
      GrownHasRoom(max_nb_slots);
      var index, d := FindSlot(key);
      if slots[index].key == key {
        value := slots[index].value;
      } else {
        ProbeMisses(slots[..], contents, dist, key, d);
        value := RMT_NOT_FOUND;
      }
    }
  }

  lemma KeysDistinct(slots: seq<HashSlot>, contents: map<nat, nat>, dist: map<nat, nat>, i: nat)
    requires Holds(slots, contents, dist) && i < |slots|
    ensures forall j :: 0 <= j < |slots| && slots[j].key != 0 && slots[j].key == slots[i].key ==> j == i
    ensures slots[i].key != 0 ==> slots[i].key in contents && contents[slots[i].key] == slots[i].value
  {
  }

  /** What is in the first i of the old slots has been put back, and nothing else. */
  ghost predicate PutBack(slots: seq<HashSlot>, all: map<nat, nat>, contents: map<nat, nat>, i: nat) {
    && (forall k :: k in contents ==> k in all && contents[k] == all[k])
    && (forall j :: 0 <= j < |slots| && slots[j].key != 0 ==> (slots[j].key in contents <==> j < i))
  }

  lemma PutBackNext(slots: seq<HashSlot>, all: map<nat, nat>, dist: map<nat, nat>, contents: map<nat, nat>, i: nat)
    requires Holds(slots, all, dist) && i < |slots| && PutBack(slots, all, contents, i)
    ensures PutBack(slots, all, if slots[i].key == 0 then contents else contents[slots[i].key := slots[i].value], i + 1)
  {
    KeysDistinct(slots, all, dist, i);
  }

  lemma AllReinserted(slots: seq<HashSlot>, all: map<nat, nat>, dist: map<nat, nat>, contents: map<nat, nat>)
    requires Holds(slots, all, dist) && PutBack(slots, all, contents, |slots|)
    ensures contents == all
  {
    forall k | k in all ensures k in contents { assert slots[Probe(k, dist[k], |slots|)].key == k; }
  }

  lemma RoomForOneMore(some: map<nat, nat>, all: map<nat, nat>, k: nat)
    requires some.Keys <= all.Keys && k in all && k !in some
    ensures |some| + 1 <= |all|
  {
    SubsetSize(some.Keys + {k}, all.Keys);
    assert |some.Keys| == |some| && |all.Keys| == |all|;
  }
}
