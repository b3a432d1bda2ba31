/**
 When rehash and reserve of the cuckoo map keep their promises: what their report of
 a changed size says, and runs of the code on inputs for which a promise fails.
 */
module CuckooResize {
  import opened Prelude
  import opened Modular
  import opened CuckooHash
  import opened CuckooTable
  import opened Map = CuckooMap
  import Bits

  // ------------------------------------------------------ the reported change

  ghost function Range(a: nat, b: nat): (r: set<nat>)
    requires a <= b
    ensures |r| == b - a && forall k :: k in r <==> a <= k < b
  {
    if a == b then {} else Range(a, b - 1) + {b - 1}
  }

  /** More keys than the whole table has slots. */
  lemma TooManyForTable<K>(h: K -> nat, hp: nat, S: nat, keys: set<K>)
    requires |keys| > Pow2(hp) * S
    ensures Overfull(h, hp, S, keys)
  {
    var bs := BucketsOf(h, hp, keys);
    forall k | k in keys ensures First(hp, HashOf(h, k)) < Pow2(hp) && Second(hp, HashOf(h, k)) < Pow2(hp) {
      InTable(hp, HashOf(h, k), PartialKey(HashOf(h, k)), First(hp, HashOf(h, k)));
    }
    SubsetSize(bs, Range(0, Pow2(hp)));
    MulMono(|bs|, Pow2(hp), S);
  }

  /** A successful rehash to n, or reserve that comes to n, reports truly whether the
      hashpower hp0 has changed when n is no smaller; and for a smaller n as soon as
      one hashpower between gives no reason to grow.  But it does not shrink a table
      with more elements than half its slots, or more generally one whose keys are too
      many for their buckets at each smaller hashpower: then, if hp0 gives no reason to
      grow, it says that the size changed, and it has not. */
  lemma ReportIsTrueWhen<K, V>(h: K -> nat, S: nat, m: map<K, V>, n: nat, hp0: nat, hp1: nat, changed: bool)
    requires Resized(h, S, m, n, hp0, hp1, changed)
    ensures n >= hp0 ==> changed == (hp1 != hp0)
    ensures n < hp0 && (exists hp :: n <= hp < hp0 && !MayGrow(h, hp, S, DEFAULT_MINIMUM_LOAD_FACTOR, m)) ==>
      changed && hp1 < hp0
    ensures n < hp0 && (forall hp: nat :: n <= hp < hp0 ==> Overfull(h, hp, S, m.Keys)) ==> changed && hp1 >= hp0
    ensures n < hp0 && |m| > Pow2(hp0 - 1) * S ==> changed && hp1 >= hp0
    ensures n < hp0 && hp1 >= hp0 && !MayGrow(h, hp0, S, DEFAULT_MINIMUM_LOAD_FACTOR, m) ==> changed && hp1 == hp0
  {
    if n < hp0 && |m| > Pow2(hp0 - 1) * S && hp1 < hp0 {
      Pow2Mono(hp1, hp0 - 1);
      MulMono(Pow2(hp1), Pow2(hp0 - 1), S);
      assert |m| == |m.Keys|;
      TooManyForTable(h, hp1, S, m.Keys);
    }
  }

  // --------------------------------------------------- filling a map one by one

  /** The first n keys, each with value 1. */
  ghost function Ones(n: nat): (m: map<nat, nat>)
    ensures m.Keys == Range(0, n) && |m| == n
  {
    var m := map k | k in Range(0, n) :: 1;
    assert m.Keys == Range(0, n) && |m| == |m.Keys|;
    m
  }

  lemma OneMoreOne(n: nat)
    ensures Ones(n)[n := 1] == Ones(n + 1)
  {
  }

  /** Inserting key n where it is not crowded out needs no room to be made. */
  method AddOne(m: CuckooMap<nat, nat>, n: nat)
    requires m.Valid() && m.Limited() && m.contents == Ones(n)
    requires !Crowded(m.hash, m.buckets.hashpower, m.slot_per_bucket, Range(0, n), n)
    modifies m`all_locks, m`contents, m`pos, m.buckets
    ensures m.Valid() && m.contents == Ones(n + 1) && m.buckets.hashpower == old(m.buckets.hashpower)
  {
    ghost var hp := m.buckets.hashpower;
    var r := m.Insert(n, 1);
    assert !GrowsFor(m.hash, hp, m.slot_per_bucket, m.minimum_load_factor, Ones(n), n);
    OneMoreOne(n);
  }

  /** None of the first n keys is crowded out by those before it. */
  ghost predicate NeverCrowded(h: nat -> nat, hp: nat, S: nat, n: nat) {
    forall k: nat :: k < n ==> !Crowded(h, hp, S, Range(0, k), k)
  }

  /** ... so they can all be inserted. */
  method AddOnes(m: CuckooMap<nat, nat>, n: nat)
    requires m.Valid() && m.Limited() && m.contents == map[]
    requires NeverCrowded(m.hash, m.buckets.hashpower, m.slot_per_bucket, n)
    modifies m`all_locks, m`contents, m`pos, m.buckets
    ensures m.Valid() && m.contents == Ones(n) && m.buckets.hashpower == old(m.buckets.hashpower)
  {
    var k := 0;
    assert Ones(0) == map[];
    while k < n
      invariant k <= n && m.Valid() && m.contents == Ones(k) && m.buckets.hashpower == old(m.buckets.hashpower)
    {
      AddOne(m, k);
      k := k + 1;
    }
  }

  // --------------------------------------------- a change reported, and none made

  /** Half of the keys have one hash, half the other.  Each has an odd partial. */
  function Halved(S: nat): nat -> nat { k => if k < S then 0x100 else 1 }

  lemma HalvedHash(S: nat, k: nat)
    ensures HashOf(Halved(S), k) == if k < S then 0x100 else 1
  {
    assert Hash64(0x100) == 0x100 && Hash64(1) == 1;
  }

  /** With an even tag a key has only one of two buckets. */
  lemma EvenTagStays(partial: nat, i: nat)
    requires i < 2 && Tag(partial) % 2 == 0
    ensures AltIndex(1, partial, i) == i
  {
    assert Pow2(1) == 2;
    InTable(1, 0, partial, i);
    Bits.XorBits(i, Tag(partial));
  }

  lemma TagOfOne()
    ensures Tag(1) % 2 == 0
  {
    assert Tag(1) == 2 * MURMUR - WORD64;
  }

  lemma HalvedBucket(S: nat, k: nat)
    ensures First(1, HashOf(Halved(S), k)) == Second(1, HashOf(Halved(S), k)) == if k < S then 0 else 1
  {
    HalvedHash(S, k);
    HalvedPartials();
    OneBucket(HashOf(Halved(S), k), if k < S then 0 else 1);
  }

  lemma OneBucket(hash: nat, b: nat)
    requires PartialKey(hash) == 1 && hash % 2 == b
    ensures First(1, hash) == Second(1, hash) == b
  {
    TagOfOne();
    assert Pow2(1) == 2;
    InTable(1, hash, 0, 0);
    EvenTagStays(1, IndexHash(1, hash));
  }

  /** One step of partial_key: the upper half of a number folded onto the lower. */
  function Fold(x: nat, n: nat): nat
    requires n > 0
  {
    Bits.Xor(x % n, x / n % n)
  }

  /** Folding leaves a number that has no upper half. */
  lemma FoldSmall(x: nat, n: nat)
    requires x < n
    ensures Fold(x, n) == x
  {
    DivUnique(x, 0, x, n);
    Bits.XorZero(x);
  }

  lemma HalvedPartials()
    ensures PartialKey(0x100) == 1 && PartialKey(1) == 1
  {
    PartialOfSmall(0x100, 0, 1);
    PartialOfSmall(1, 1, 0);
    Bits.XorZero(1);
  }

  lemma PartialOfSmall(hash: nat, low: nat, high: nat)
    requires hash == high * 0x100 + low && low < 0x100 && high < 0x100
    ensures PartialKey(hash) == Bits.Xor(low, high)
  {
    FoldSmall(hash, 0x1_0000_0000);
    FoldSmall(hash, 0x1_0000);
    FoldByte(hash, low, high);
    FoldThree(hash, hash, hash);
  }

  lemma FoldThree(hash: nat, hash_32bit: nat, hash_16bit: nat)
    requires Fold(hash, 0x1_0000_0000) == hash_32bit && Fold(hash_32bit, 0x1_0000) == hash_16bit
    ensures PartialKey(hash) == Fold(hash_16bit, 0x100)
  {
  }

  lemma FoldByte(x: nat, low: nat, high: nat)
    requires x == high * 0x100 + low && low < 0x100 && high < 0x100
    ensures Fold(x, 0x100) == Bits.Xor(low, high)
  {
    DivUnique(x, high, low, 0x100);
    DivUnique(high, 0, high, 0x100);
  }

  ghost function Half(S: nat, k: nat): set<nat> { if k < S then Range(0, S) else Range(S, 2 * S) }

  lemma HalvedNotCrowded(S: nat, keys: set<nat>, k: nat)
    requires keys <= Range(0, 2 * S) && k < 2 * S
    ensures !Crowded(Halved(S), 1, S, keys, k)
  {
    var others := Candidates(Halved(S), 1, keys - {k}, First(1, HashOf(Halved(S), k)));
    forall x | x in others ensures x in Half(S, k) { SameHalf(S, x, k); }
    assert k in Half(S, k) && k !in others;
    SubsetSize(others + {k}, Half(S, k));
  }

  lemma SameHalf(S: nat, x: nat, k: nat)
    requires x < 2 * S && k < 2 * S && IsCandidate(1, HashOf(Halved(S), x), First(1, HashOf(Halved(S), k)))
    ensures x in Half(S, k)
  {
    HalvedBucket(S, x);
    HalvedBucket(S, k);
  }

  /** Two full buckets, one for each hash. */
  method FillHalves(S: nat) returns (m: CuckooMap<nat, nat>)
    requires 0 < S <= 8
    ensures m.Valid() && fresh(m) && fresh(m.buckets) && m.contents == Ones(2 * S) && m.buckets.hashpower == 1
    ensures m.hash == Halved(S) && m.slot_per_bucket == S && m.maximum_hashpower == None
  {
    m := new CuckooMap<nat, nat>(Pow2(1) * S, Halved(S), true, S, 1, (k, v) => (k, v));
    NewMapFits(m.buckets.hashpower, 1, S);
    forall k: nat | k < 2 * S ensures !Crowded(Halved(S), 1, S, Range(0, k), k) {
      HalvedNotCrowded(S, Range(0, k), k);
    }
    AddOnes(m, 2 * S);
  }

  lemma HalvesStay(S: nat, hp: nat)
    requires S > 0 && Grown(Halved(S), S, DEFAULT_MINIMUM_LOAD_FACTOR, Ones(2 * S), 0, hp)
    ensures hp <= 1 && !MayStick(Halved(S), hp, S, DEFAULT_MINIMUM_LOAD_FACTOR, Ones(2 * S))
  {
    if hp > 1 {
      assert MayGrow(Halved(S), 1, S, DEFAULT_MINIMUM_LOAD_FACTOR, Ones(2 * S));
      var k :| k in Ones(2 * S) && GrowsFor(Halved(S), 1, S, DEFAULT_MINIMUM_LOAD_FACTOR, Ones(2 * S), k);
      HalvedNotCrowded(S, Range(0, 2 * S), k);
    } else {
      HalfFull(hp, S);
    }
  }

  lemma HalfFull(hp: nat, S: nat)
    requires hp <= 1 && S > 0
    ensures !LoadBelow(S, hp, S, DEFAULT_MINIMUM_LOAD_FACTOR)
  {
    assert Pow2(hp) <= 2;
    MulMono(Pow2(hp), 2, S);
    MulMono(1, Pow2(hp), S);
    QuotientAtLeast(S as real, (Pow2(hp) * S) as real, 0.05);
  }

  lemma QuotientAtLeast(a: real, b: real, q: real)
    requires b > 0.0 && a >= q * b
    ensures a / b >= q
  {
    var d := a / b;
    assert a == d * b;
    if d < q { QuotientLess(d, q, b); }
  }

  lemma QuotientLess(d: real, q: real, b: real)
    requires b > 0.0 && d < q
    ensures d * b < q * b
  {
  }

  /** The map has two buckets, both full.  Asked for one bucket, rehash moves the
      elements to a new map that grows to two, and says that the size has changed. */
  method RehashReportsNoChange(S: nat) returns (m: CuckooMap<nat, nat>, before: nat, r: Result<bool>)
    requires 0 < S <= 8
    ensures fresh(m) && m.Valid() && r == Success(true) && before == m.buckets.hashpower
  {
    m := FillHalves(S);
    before := m.buckets.hashpower;
    forall hp: nat | Grown(m.hash, S, DEFAULT_MINIMUM_LOAD_FACTOR, m.contents, 0, hp)
      ensures hp <= 1 && !MayStick(m.hash, hp, S, DEFAULT_MINIMUM_LOAD_FACTOR, m.contents)
    {
      HalvesStay(S, hp);
    }
    ghost var i, j;
    r, i, j := m.Rehash(0);
    ReportIsTrueWhen(m.hash, S, m.contents, 0, before, m.buckets.hashpower, true);
  }

  // ---------------------------------------------- an expansion that loses elements

  /** k times 0x10100. */
  function Multiple(k: nat): nat { if k == 0 then 0 else Multiple(k - 1) + 0x1_0100 }

  lemma {:induction false} MultipleIs(k: nat)
    ensures Multiple(k) == k * 0x1_0100
  {
    if k > 0 { MultipleIs(k - 1); }
  }

  /** Keys with distinct buckets in a table of 2^13, but the same two in one of up
      to 2^6: their hashes have the same low bits and the same partial. */
  function Spread(): nat -> nat { k => Multiple(k) }

  lemma SpreadHash(k: nat)
    requires k < 0x20
    ensures HashOf(Spread(), k) == Multiple(k)
  {
    MultipleIs(k);
  }

  lemma SpreadPartial(k: nat)
    requires k < 0x20
    ensures PartialKey(Multiple(k)) == 0
  {
    var hash, x := Multiple(k), Bits.Xor(k * 0x100, k);
    MultipleIs(k);
    FoldSmall(hash, 0x1_0000_0000);
    FoldWord(hash, k * 0x100, k);
    SpreadFolded(k);
    FoldThree(hash, hash, x);
    FoldByte(x, k, k);
    Bits.XorSelf(k);
  }

  lemma FoldWord(x: nat, low: nat, high: nat)
    requires x == high * 0x1_0000 + low && low < 0x1_0000 && high < 0x1_0000
    ensures Fold(x, 0x1_0000) == Bits.Xor(low, high)
  {
    DivUnique(x, high, low, 0x1_0000);
    DivUnique(high, 0, high, 0x1_0000);
  }

  /** Both bytes of the second folding are k. */
  lemma SpreadFolded(k: nat)
    requires k < 0x20
    ensures Bits.Xor(k * 0x100, k) == k * 0x100 + k
  {
    assert Pow2(8) == 0x100;
    Bits.XorMod(k * 0x100, k, 8);
    Bits.XorByte(k * 0x100, k);
    Bits.XorZero(k);
    DivUnique(k * 0x100, k, 0, 0x100);
    DivUnique(k, 0, k, 0x100);
  }

  lemma SpreadTogether(hp: nat, k: nat)
    requires hp <= 6 && k < 0x20
    ensures First(hp, Multiple(k)) == 0 && Second(hp, Multiple(k)) == AltIndex(hp, 0, 0)
  {
    SpreadPartial(k);
    AllInFirst(hp, k);
  }

  lemma AllInFirst(hp: nat, k: nat)
    requires hp <= 6
    ensures First(hp, Multiple(k)) == 0
  {
    MultipleIs(k);
    InTable(hp, Multiple(k), 0, 0);
    SmallPowers(hp);
    DivUnique(Multiple(k), k * 0x101 * Pow2(8 - hp), 0, Pow2(hp));
  }

  lemma SmallPowers(hp: nat)
    requires hp <= 6
    ensures Pow2(8 - hp) * Pow2(hp) == 0x100
    ensures forall x: nat :: x * 0x101 * Pow2(8 - hp) * Pow2(hp) == x * 0x1_0100
  {
    assert Pow2(2) == 4 && Pow2(4) == 16 && Pow2(6) == 64 && Pow2(8) == 0x100;
    assert Pow2(8 - hp) * Pow2(hp) == 0x100;
    forall x: nat ensures x * 0x101 * Pow2(8 - hp) * Pow2(hp) == x * 0x1_0100 {
      Associate(x * 0x101, Pow2(8 - hp), Pow2(hp));
    }
  }

  lemma Associate(a: nat, b: nat, c: nat)
    ensures a * b * c == a * (b * c)
  {
  }

  lemma SpreadOverfull(S: nat, hp: nat)
    requires 0 < S <= 8 && hp <= 6
    ensures Overfull(Spread(), hp, S, Range(0, 2 * S + 1))
  {
    forall k | k in Range(0, 2 * S + 1)
      ensures First(hp, HashOf(Spread(), k)) == 0 && Second(hp, HashOf(Spread(), k)) == AltIndex(hp, 0, 0)
    {
      SpreadHash(k);
      SpreadTogether(hp, k);
    }
    TogetherOverfull(Spread(), hp, S, Range(0, 2 * S + 1), 0, AltIndex(hp, 0, 0));
  }

  /** More than 2 S keys with the same two buckets. */
  lemma TogetherOverfull(h: nat -> nat, hp: nat, S: nat, ks: set<nat>, b1: nat, b2: nat)
    requires |ks| > 2 * S
    requires forall k :: k in ks ==> First(hp, HashOf(h, k)) == b1 && Second(hp, HashOf(h, k)) == b2
    ensures Overfull(h, hp, S, ks)
  {
    FewBuckets(BucketsOf(h, hp, ks), b1, b2, S);
  }

  lemma SpreadNoRoom(S: nat, h: nat -> nat, m: map<nat, nat>)
    requires 0 < S <= 8 && h == Spread() && m == Ones(2 * S + 1)
    ensures NoRoomFrom(h, S, m, 0)
  {
    forall hp: nat | Grown(h, S, DEFAULT_MINIMUM_LOAD_FACTOR, m, 0, hp) ensures Overfull(h, hp, S, m.Keys) {
      SpreadStays(S, hp);
      SpreadOverfull(S, hp);
    }
  }

  lemma SpreadStays(S: nat, hp: nat)
    requires S > 0 && Grown(Spread(), S, DEFAULT_MINIMUM_LOAD_FACTOR, Ones(2 * S + 1), 0, hp)
    ensures hp <= 6
  {
    ThinlySpread(S);
    assert !MayGrow(Spread(), 6, S, DEFAULT_MINIMUM_LOAD_FACTOR, Ones(2 * S + 1));
  }

  /** In 2^6 buckets the load factor is already too low to grow. */
  lemma ThinlySpread(S: nat)
    requires S > 0
    ensures LoadBelow(2 * S + 1, 6, S, DEFAULT_MINIMUM_LOAD_FACTOR)
  {
    assert Pow2(3) == 8 && Pow2(6) == 64;
    QuotientBelow((2 * S + 1) as real, (64 * S) as real, 0.05);
  }

  lemma QuotientBelow(a: real, b: real, q: real)
    requires b > 0.0 && a < q * b
    ensures a / b < q
  {
    var d := a / b;
    assert a == d * b;
    if d > q { QuotientLess(q, d, b); }
  }

  lemma SpreadFirst(k: nat)
    requires k < 0x20
    ensures First(13, Multiple(k)) == k * 0x100
  {
    MultipleIs(k);
    Thirteen();
    InTable(13, Multiple(k), 0, 0);
    DivUnique(Multiple(k), k * 8, k * 0x100, 0x2000);
  }

  lemma Thirteen()
    ensures Pow2(13) == 0x2000
  {
    assert Pow2(4) == 16 && Pow2(8) == 256 && Pow2(12) == 4096;
  }

  lemma LowByteOfAlt(i: nat)
    requires i % 0x100 == 0
    ensures AltIndex(13, 0, i) % 0x100 != 0
  {
    Thirteen();
    InTable(13, 0, 0, i);
    assert Pow2(8) == 0x100;
    Bits.XorMod(i, Tag(0), 8);
    TagOfZero();
    Bits.XorZero(0x95);
    LowByteKept(Bits.Xor(i, Tag(0)));
  }

  lemma TagOfZero()
    ensures Tag(0) % 0x100 == 0x95
  {
    assert Tag(0) == MURMUR;
  }

  lemma LowByteKept(x: nat)
    ensures x % 0x2000 % 0x100 == x % 0x100
  {
  }

  /** In 2^13 buckets each key has a bucket that no other can be in. */
  lemma SpreadApart(x: nat, k: nat)
    requires x < 0x20 && k < 0x20 && x != k
    ensures !IsCandidate(13, Multiple(x), k * 0x100)
  {
    SpreadPartial(x);
    SpreadFirst(x);
    Hundreds(x, k);
    NotCandidate(Multiple(x), x * 0x100, k * 0x100);
  }

  lemma Hundreds(x: nat, k: nat)
    requires x != k
    ensures x * 0x100 != k * 0x100 && x * 0x100 % 0x100 == 0 && k * 0x100 % 0x100 == 0
  {
    DivUnique(x * 0x100, x, 0, 0x100);
    DivUnique(k * 0x100, k, 0, 0x100);
  }

  lemma NotCandidate(hash: nat, first: nat, b: nat)
    requires PartialKey(hash) == 0 && First(13, hash) == first && first != b
    requires first % 0x100 == 0 && b % 0x100 == 0
    ensures !IsCandidate(13, hash, b)
  {
    LowByteOfAlt(first);
  }

  lemma SpreadNotCrowded(S: nat, n: nat)
    requires S > 0 && n <= 0x20
    ensures NeverCrowded(Spread(), 13, S, n)
  {
    forall k: nat | k < n ensures !Crowded(Spread(), 13, S, Range(0, k), k) {
      SpreadHash(k);
      SpreadFirst(k);
      forall x | x in Range(0, k) ensures !IsCandidate(13, HashOf(Spread(), x), k * 0x100) {
        SpreadHash(x);
        SpreadApart(x, k);
      }
      ApartNotCrowded(Spread(), 13, S, Range(0, k), k, k * 0x100);
    }
  }

  /** A key that has bucket b to itself. */
  lemma ApartNotCrowded(h: nat -> nat, hp: nat, S: nat, keys: set<nat>, k: nat, b: nat)
    requires S > 0 && b == First(hp, HashOf(h, k))
    requires forall x :: x in keys ==> !IsCandidate(hp, HashOf(h, x), b)
    ensures !Crowded(h, hp, S, keys, k)
  {
    assert Candidates(h, hp, keys - {k}, b) == {};
  }

  /** A map of 2^13 buckets and 2 S + 1 elements, whose values a move empties. */
  method FillSpread(S: nat) returns (m: CuckooMap<nat, nat>)
    requires 0 < S <= 8
    ensures m.Valid() && fresh(m) && fresh(m.buckets) && m.contents == Ones(2 * S + 1) && m.buckets.hashpower == 13
    ensures m.hash == Spread() && m.slot_per_bucket == S && m.maximum_hashpower == None && m.MovesChange()
  {
    SpreadNotCrowded(S, 2 * S + 1);
    m := new CuckooMap<nat, nat>(Pow2(13) * S, Spread(), true, S, 1, (k, v) => (k, 0));
    NewMapFits(m.buckets.hashpower, 13, S);
    AddOnes(m, 2 * S + 1);
  }

  /** Asked to shrink it, rehash moves elements out of the map and then fails, so
      that the map no longer stores what it did. */
  method FailedExpansionCanLoseKeys(S: nat) returns (m: CuckooMap<nat, nat>, r: Result<bool>)
    requires 0 < S <= 8
    ensures fresh(m) && m.contents == Ones(2 * S + 1) && r.Failure? && !m.Stores()
  {
    m := FillSpread(S);
    SpreadNoRoom(S, m.hash, m.contents);
    ghost var i, j;
    r, i, j := m.Rehash(0);
  }
}
