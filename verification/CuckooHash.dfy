/**
 The cuckoo map's hash arithmetic: 64-bit hashes, the partial key, the two
 candidate buckets of a key, and what doubling the table does to them.
 */
module CuckooHash {
  import opened Modular
  import Bits

  const WORD64: nat := 0x1_0000_0000_0000_0000
  const MURMUR: nat := 0xc6a4a7935bd1e995

  /** A hash value is what the hash function returns, cut to 64 bits. */
  function Hash64(h: nat): (r: nat) ensures r < WORD64 { h % WORD64 }

  function HashSize(hp: nat): nat { Pow2(hp) }

  function HashMask(hp: nat): nat { HashSize(hp) - 1 }

  /** partial_key: the hash folded to 8 bits by exclusive or. */
  function PartialKey(hash: nat): nat {
    var hash_32bit := Bits.Xor(hash % 0x1_0000_0000, hash / 0x1_0000_0000 % 0x1_0000_0000);
    var hash_16bit := Bits.Xor(hash_32bit % 0x1_0000, hash_32bit / 0x1_0000 % 0x1_0000);
    Bits.Xor(hash_16bit % 0x100, hash_16bit / 0x100 % 0x100)
  }

  function IndexHash(hp: nat, hash: nat): nat { Bits.And(hash, HashMask(hp)) }

  /** nonzero_tag times the hash constant, wrapping at 64 bits. */
  function Tag(partial: nat): nat { (partial + 1) * MURMUR % WORD64 }

  function AltIndex(hp: nat, partial: nat, index: nat): nat {
    Bits.And(Bits.Xor(index, Tag(partial)), HashMask(hp))
  }

  /** Both indices are bucket numbers. */
  lemma InTable(hp: nat, hash: nat, partial: nat, index: nat)
    ensures IndexHash(hp, hash) < HashSize(hp) && AltIndex(hp, partial, index) < HashSize(hp)
    ensures IndexHash(hp, hash) == hash % HashSize(hp)
    ensures AltIndex(hp, partial, index) == Bits.Xor(index, Tag(partial)) % HashSize(hp)
  {
    Bits.AndMask(hash, hp);
    Bits.AndMask(Bits.Xor(index, Tag(partial)), hp);
  }

  lemma PartialInRange(hash: nat)
    ensures PartialKey(hash) < 0x100
  {
    var hash_32bit := Bits.Xor(hash % 0x1_0000_0000, hash / 0x1_0000_0000 % 0x1_0000_0000);
    var hash_16bit := Bits.Xor(hash_32bit % 0x1_0000, hash_32bit / 0x1_0000 % 0x1_0000);
    assert Pow2(8) == 0x100;
    Bits.XorMod(hash_16bit, hash_16bit / 0x100, 8);
  }

  // ------------------------------------------------------- the partial key

  /** 256^n */
  function Bytes(n: nat): (r: nat)
    ensures r > 0
  {
    if n == 0 then 1 else 0x100 * Bytes(n - 1)
  }

  /** The exclusive or of the lowest n bytes of x. */
  function ByteSum(x: nat, n: nat): nat {
    if n == 0 then 0 else Bits.Xor(x % 0x100, ByteSum(x / 0x100, n - 1))
  }

  lemma {:induction false} SumOfXor(a: nat, b: nat, n: nat)
    ensures ByteSum(Bits.Xor(a, b), n) == Bits.Xor(ByteSum(a, n), ByteSum(b, n))
    decreases n
  {
    if n > 0 {
      SumOfXor(a / 0x100, b / 0x100, n - 1);
      Bits.XorByte(a, b);
      assert Pow2(8) == 0x100;
      Bits.XorMod(a, b, 8);
      Bits.XorSwap(a % 0x100, b % 0x100, ByteSum(a / 0x100, n - 1), ByteSum(b / 0x100, n - 1));
    } else {
      assert Bits.Xor(0, 0) == 0;
    }
  }

  /** x without its lowest n bytes. */
  function Above(x: nat, n: nat): nat {
    if n == 0 then x else Above(x / 0x100, n - 1)
  }

  lemma {:induction false} AboveIsQuotient(x: nat, n: nat, w: nat)
    requires w == Bytes(n)
    ensures Above(x, n) == x / w
    decreases n
  {
    if n > 0 {
      AboveIsQuotient(x / 0x100, n - 1, Bytes(n - 1));
      ModProduct(x, 0x100, Bytes(n - 1));
    }
  }

  lemma {:induction false} SumOfParts(x: nat, m: nat, n: nat)
    ensures ByteSum(x, m + n) == Bits.Xor(ByteSum(x, m), ByteSum(Above(x, m), n))
    decreases m
  {
    if m > 0 {
      SumOfParts(x / 0x100, m - 1, n);
      Bits.XorAssoc(x % 0x100, ByteSum(x / 0x100, m - 1), ByteSum(Above(x, m), n));
    } else {
      Bits.XorZero(ByteSum(x, n));
    }
  }

  lemma {:induction false} SumOfLow(x: nat, n: nat)
    ensures ByteSum(x % Bytes(n), n) == ByteSum(x, n)
    decreases n
  {
    if n > 0 {
      ModProduct(x, 0x100, Bytes(n - 1));
      SumOfLow(x / 0x100, n - 1);
    }
  }

  lemma {:induction false} SumOfRest(x: nat, n: nat, w: nat)
    requires w == Bytes(n)
    ensures ByteSum(x / w % w, n) == ByteSum(Above(x, n), n)
  {
    AboveIsQuotient(x, n, w);
    SumOfLow(Above(x, n), n);
  }

  /** Folding the upper half of 2 n bytes onto the lower keeps the sum. */
  lemma {:induction false} FoldKeepsSum(x: nat, n: nat, low: nat, high: nat)
    requires ByteSum(low, n) == ByteSum(x, n) && ByteSum(high, n) == ByteSum(Above(x, n), n)
    ensures ByteSum(Bits.Xor(low, high), n) == ByteSum(x, n + n)
  {
    SumOfXor(low, high, n);
    SumOfParts(x, n, n);
  }

  lemma {:induction false} FoldWord(hash: nat)
    ensures ByteSum(Bits.Xor(hash % 0x1_0000_0000, hash / 0x1_0000_0000 % 0x1_0000_0000), 4) == ByteSum(hash, 8)
  {
    assert Bytes(4) == 0x1_0000_0000;
    SumOfLow(hash, 4);
    SumOfRest(hash, 4, 0x1_0000_0000);
    FoldKeepsSum(hash, 4, hash % 0x1_0000_0000, hash / 0x1_0000_0000 % 0x1_0000_0000);
  }

  lemma {:induction false} FoldHalf(x: nat)
    ensures ByteSum(Bits.Xor(x % 0x1_0000, x / 0x1_0000 % 0x1_0000), 2) == ByteSum(x, 4)
  {
    assert Bytes(2) == 0x1_0000;
    SumOfLow(x, 2);
    SumOfRest(x, 2, 0x1_0000);
    FoldKeepsSum(x, 2, x % 0x1_0000, x / 0x1_0000 % 0x1_0000);
  }

  lemma {:induction false} FoldPair(x: nat)
    ensures ByteSum(Bits.Xor(x % 0x100, x / 0x100 % 0x100), 1) == ByteSum(x, 2)
  {
    assert Bytes(1) == 0x100;
    SumOfLow(x, 1);
    SumOfRest(x, 1, 0x100);
    FoldKeepsSum(x, 1, x % 0x100, x / 0x100 % 0x100);
  }

  /** Halving three times comes to the exclusive or of all eight bytes of the hash. */
  lemma {:induction false} PartialIsByteSum(hash: nat)
    ensures PartialKey(hash) == ByteSum(hash, 8)
  {
    var hash_32bit := Bits.Xor(hash % 0x1_0000_0000, hash / 0x1_0000_0000 % 0x1_0000_0000);
    var hash_16bit := Bits.Xor(hash_32bit % 0x1_0000, hash_32bit / 0x1_0000 % 0x1_0000);
    FoldWord(hash);
    FoldHalf(hash_32bit);
    FoldPair(hash_16bit);
    PartialInRange(hash);
    OneByte(PartialKey(hash));
  }

  lemma OneByte(x: nat)
    requires x < 0x100
    ensures ByteSum(x, 1) == x
  {
    Bits.XorZero(x);
    assert ByteSum(x / 0x100, 0) == 0;
  }

  // ---------------------------------------------------- the alternate index

  /** The alternate index of the alternate index is the index: each bucket of a
      key leads to the other. */
  lemma AltIsInvolution(hp: nat, partial: nat, index: nat)
    requires index < HashSize(hp)
    ensures AltIndex(hp, partial, AltIndex(hp, partial, index)) == index
  {
    var n := HashSize(hp);
    var tag := Tag(partial);
    var x := Bits.Xor(index, tag);
    InTable(hp, 0, partial, index);
    InTable(hp, 0, partial, x % n);
    Bits.XorMod(x % n, tag, hp);
    Bits.XorMod(x, tag, hp);
    DivUnique(x % n, 0, x % n, n);
    Bits.XorTwice(index, tag);
    DivUnique(index, 0, index, n);
  }

  lemma {:induction false} ModMod(x: nat, m: nat, n: nat)
    requires m <= n
    ensures x % Pow2(n) % Pow2(m) == x % Pow2(m)
    decreases n
  {
    if m < n {
      Bits.TopBit(x, n - 1);
      ModMod(x, m, n - 1);
      ModMod(x % Pow2(n), m, n - 1);
    } else {
      DivUnique(x % Pow2(n), 0, x % Pow2(n), Pow2(n));
    }
  }

  /** An odd factor does not make a number divisible by a power of two. */
  lemma {:induction false} OddFactor(d: nat, k: nat, hp: nat)
    requires d * (2 * k + 1) % Pow2(hp) == 0
    ensures d % Pow2(hp) == 0
    decreases hp
  {
    if hp > 0 {
      var p, e := Pow2(hp - 1), d / 2;
      var x := d * (2 * k + 1);
      Bits.ModDouble(x, p);
      Bits.ModDouble(d, p);
      assert x == 2 * (d * k) + d;
      assert d == 2 * e;
      assert x == 2 * (e * (2 * k + 1));
      OddFactor(e, k, hp - 1);
    }
  }

  /** The bits of the tag that matter, and the alternate index through them. */
  lemma AltByTag(hp: nat, partial: nat, index: nat)
    requires hp <= 64 && index < HashSize(hp)
    ensures AltIndex(hp, partial, index) == Bits.Xor(index, (partial + 1) * MURMUR % HashSize(hp))
  {
    InTable(hp, 0, partial, index);
    Bits.XorMod(index, Tag(partial), hp);
    DivUnique(index, 0, index, HashSize(hp));
    WordIsPow();
    ModMod((partial + 1) * MURMUR, hp, 64);
  }

  lemma WordIsPow()
    ensures Pow2(64) == WORD64
  {
    assert Pow2(8) == 0x100 && Pow2(16) == 0x1_0000 && Pow2(24) == 0x100_0000 && Pow2(32) == 0x1_0000_0000;
    assert Pow2(40) == 0x100_0000_0000 && Pow2(48) == 0x1_0000_0000_0000 && Pow2(56) == 0x100_0000_0000_0000;
  }

  /** Why the tag is made one more than the partial key: the two buckets are one
      exactly when the table's size divides it, so never beyond 256 buckets. */
  lemma AltIsSameExactlyWhen(hp: nat, partial: nat, index: nat)
    requires hp <= 64 && index < HashSize(hp)
    ensures AltIndex(hp, partial, index) == index <==> (partial + 1) % HashSize(hp) == 0
    ensures hp > 8 && partial < 0x100 ==> AltIndex(hp, partial, index) != index
  {
    var n, tag := HashSize(hp), partial + 1;
    AltByTag(hp, partial, index);
    Bits.XorZero(index);
    if AltIndex(hp, partial, index) == index {
      Bits.XorInjective(index, tag * MURMUR % n, 0);
      OddFactor(tag, MURMUR / 2, hp);
    } else if tag % n == 0 {
      MultipleTimes(tag, MURMUR, n);
    }
    if hp > 8 && partial < 0x100 {
      assert Pow2(9) == 0x200;
      Pow2Mono(9, hp);
      DivUnique(tag, 0, tag, n);
    }
  }

  /** From one bucket, keys with different partial keys have different alternates,
      unless these agree modulo the table's size. */
  lemma AltTellsPartialsApart(hp: nat, partial: nat, other: nat, index: nat)
    requires hp <= 64 && index < HashSize(hp) && other <= partial
    ensures AltIndex(hp, partial, index) == AltIndex(hp, other, index) <==>
      partial % HashSize(hp) == other % HashSize(hp)
  {
    var n, x, y := HashSize(hp), (partial + 1) * MURMUR, (other + 1) * MURMUR;
    AltByTag(hp, partial, index);
    AltByTag(hp, other, index);
    assert x - y == (partial - other) * MURMUR;
    SameRemainder(x, y, n);
    SameRemainder(partial, other, n);
    if AltIndex(hp, partial, index) == AltIndex(hp, other, index) {
      Bits.XorInjective(index, x % n, y % n);
      OddFactor(partial - other, MURMUR / 2, hp);
    } else if partial % n == other % n {
      MultipleTimes(partial - other, MURMUR, n);
    }
  }

  /** With one more bit of hashpower, each index gains at most the new top bit. */
  lemma DoublingKeepsIndex(hp: nat, hash: nat)
    ensures var i, i' := IndexHash(hp, hash), IndexHash(hp + 1, hash);
      i' == i || i' == i + HashSize(hp)
  {
    InTable(hp, hash, 0, 0);
    InTable(hp + 1, hash, 0, 0);
    Bits.TopBit(hash, hp);
  }

  lemma DoublingKeepsAlt(hp: nat, partial: nat, index: nat, index': nat)
    requires index' == index || index' == index + HashSize(hp)
    requires index < HashSize(hp)
    ensures var a, a' := AltIndex(hp, partial, index), AltIndex(hp + 1, partial, index');
      a' == a || a' == a + HashSize(hp)
  {
    var n, tag := HashSize(hp), Tag(partial);
    InTable(hp, 0, partial, index);
    InTable(hp + 1, 0, partial, index');
    Bits.TopBit(Bits.Xor(index', tag), hp);
    Bits.XorMod(index', tag, hp);
    Bits.XorMod(index, tag, hp);
    DivUnique(index, 0, index, n);
    DivUnique(index', if index' == index then 0 else 1, index, n);
  }

  /** The two buckets a key of this hash may be in. */
  function First(hp: nat, hash: nat): nat { IndexHash(hp, hash) }

  function Second(hp: nat, hash: nat): nat { AltIndex(hp, PartialKey(hash), IndexHash(hp, hash)) }

  predicate IsCandidate(hp: nat, hash: nat, bucket: nat) {
    bucket == First(hp, hash) || bucket == Second(hp, hash)
  }

  /** The alternate of a candidate bucket is the other candidate bucket. */
  lemma AltOfCandidate(hp: nat, hash: nat, bucket: nat)
    requires IsCandidate(hp, hash, bucket)
    ensures bucket < HashSize(hp)
    ensures IsCandidate(hp, hash, AltIndex(hp, PartialKey(hash), bucket))
    ensures AltIndex(hp, PartialKey(hash), AltIndex(hp, PartialKey(hash), bucket)) == bucket
  {
    InTable(hp, hash, PartialKey(hash), IndexHash(hp, hash));
    AltIsInvolution(hp, PartialKey(hash), IndexHash(hp, hash));
    AltIsInvolution(hp, PartialKey(hash), bucket);
  }

  // --------------------------------------------------------------- doubling

  /** move_buckets' test: does an item of bucket i move to bucket i + 2^hp? */
  predicate MovesUp(hp: nat, hash: nat, i: nat) {
    var partial := PartialKey(hash);
    var old_ihash := IndexHash(hp, hash);
    var old_ahash := AltIndex(hp, partial, old_ihash);
    var new_ihash := IndexHash(hp + 1, hash);
    var new_ahash := AltIndex(hp + 1, partial, new_ihash);
    var new_bucket_ind := i + HashSize(hp);
    (i == old_ihash && new_ihash == new_bucket_ind) || (i == old_ahash && new_ahash == new_bucket_ind)
  }

  /** Wherever an item goes, it is a candidate bucket at the new hashpower; an
      item that stays satisfies the source's assertion. */
  lemma DoublingKeepsCandidates(hp: nat, hash: nat, i: nat)
    requires IsCandidate(hp, hash, i)
    ensures IsCandidate(hp + 1, hash, if MovesUp(hp, hash, i) then i + HashSize(hp) else i)
    ensures !MovesUp(hp, hash, i) ==>
      (i == First(hp, hash) == First(hp + 1, hash)) || (i == Second(hp, hash) == Second(hp + 1, hash))
  {
    DoublingKeepsIndex(hp, hash);
    InTable(hp, hash, PartialKey(hash), IndexHash(hp, hash));
    DoublingKeepsAlt(hp, PartialKey(hash), IndexHash(hp, hash), IndexHash(hp + 1, hash));
  }
}
