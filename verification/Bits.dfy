/** Bitwise "and" and "exclusive or" of natural numbers, and masks. */
module Bits {
  import opened Modular

  function And(a: nat, b: nat): nat
    decreases a
  {
    if a == 0 || b == 0 then 0
    else 2 * And(a / 2, b / 2) + (if a % 2 == 1 && b % 2 == 1 then 1 else 0)
  }

  function Xor(a: nat, b: nat): nat
    decreases a + b
  {
    if a == 0 && b == 0 then 0
    else 2 * Xor(a / 2, b / 2) + (a % 2 + b % 2) % 2
  }

  /** Division and remainder by 2 p, through those by 2. */
  lemma ModDouble(x: nat, p: nat)
    requires p > 0
    ensures x % (2 * p) == 2 * (x / 2 % p) + x % 2
    ensures x / (2 * p) == x / 2 / p
  {
    var q, r := x / 2 / p, x / 2 % p;
    assert x / 2 == q * p + r;
    assert x == q * (2 * p) + (2 * r + x % 2);
    DivUnique(x, q, 2 * r + x % 2, 2 * p);
  }

  /** Masking with 2^k - 1 is the remainder modulo 2^k. */
  lemma {:induction false} AndMask(x: nat, k: nat)
    ensures And(x, Pow2(k) - 1) == x % Pow2(k)
    decreases k
  {
    if k > 0 {
      var p := Pow2(k - 1);
      AndMask(x / 2, k - 1);
      assert (2 * p - 1) / 2 == p - 1 && (2 * p - 1) % 2 == 1;
      ModDouble(x, p);
      if x == 0 { assert 0 / 2 % p == 0 by { DivUnique(0, 0, 0, p); } }
      else if 2 * p - 1 != 0 { assert And(x, 2 * p - 1) == 2 * And(x / 2, p - 1) + x % 2; }
    }
  }

  /** Exclusive or, bit by bit from the lowest. */
  lemma XorBits(a: nat, b: nat)
    ensures Xor(a, b) / 2 == Xor(a / 2, b / 2)
    ensures Xor(a, b) % 2 == (a % 2 + b % 2) % 2
  {
  }

  lemma {:induction false} XorTwice(a: nat, b: nat)
    ensures Xor(Xor(a, b), b) == a
    decreases a + b
  {
    if a != 0 || b != 0 {
      XorTwice(a / 2, b / 2);
      XorBits(a, b);
      XorBits(Xor(a, b), b);
      FlipTwice(a % 2, b % 2);
      SameBits(Xor(Xor(a, b), b), a);
    }
  }

  lemma {:induction false} XorZero(a: nat)
    ensures Xor(a, 0) == a && Xor(0, a) == a
  {
    if a != 0 { XorZero(a / 2); }
  }

  lemma {:induction false} XorSelf(a: nat)
    ensures Xor(a, a) == 0
  {
    if a != 0 { XorSelf(a / 2); }
  }

  lemma {:induction false} XorComm(a: nat, b: nat)
    ensures Xor(a, b) == Xor(b, a)
    decreases a + b
  {
    if a != 0 || b != 0 { XorComm(a / 2, b / 2); }
  }

  lemma {:induction false} XorAssoc(a: nat, b: nat, c: nat)
    ensures Xor(Xor(a, b), c) == Xor(a, Xor(b, c))
    decreases a + b + c
  {
    if a != 0 || b != 0 || c != 0 {
      XorAssoc(a / 2, b / 2, c / 2);
      XorBits(a, b);
      XorBits(b, c);
      XorBits(Xor(a, b), c);
      XorBits(a, Xor(b, c));
      SumTwice(a % 2, b % 2, c % 2);
      SameBits(Xor(Xor(a, b), c), Xor(a, Xor(b, c)));
    }
  }

  lemma SumTwice(x: nat, y: nat, z: nat)
    requires x < 2 && y < 2 && z < 2
    ensures ((x + y) % 2 + z) % 2 == (x + (y + z) % 2) % 2
  {
  }

  lemma XorSwap(a: nat, b: nat, c: nat, d: nat)
    ensures Xor(Xor(a, b), Xor(c, d)) == Xor(Xor(a, c), Xor(b, d))
  {
    XorAssoc(a, b, Xor(c, d));
    XorAssoc(b, c, d);
    XorComm(b, c);
    XorAssoc(c, b, d);
    XorAssoc(a, c, Xor(b, d));
  }

  /** Exclusive or with a loses nothing. */
  lemma XorInjective(a: nat, b: nat, c: nat)
    requires Xor(a, b) == Xor(a, c)
    ensures b == c
  {
    XorComm(a, b);
    XorComm(a, c);
    XorTwice(b, a);
    XorTwice(c, a);
  }

  lemma FlipTwice(x: nat, y: nat)
    requires x < 2 && y < 2
    ensures ((x + y) % 2 + y) % 2 == x
  {
  }

  lemma SameBits(a: nat, b: nat)
    requires a / 2 == b / 2 && a % 2 == b % 2
    ensures a == b
  {
  }

  /** The low k bits of an exclusive or come from the low k bits of its operands. */
  lemma {:induction false} XorMod(a: nat, b: nat, k: nat)
    ensures Xor(a, b) % Pow2(k) == Xor(a % Pow2(k), b % Pow2(k))
    ensures Xor(a % Pow2(k), b % Pow2(k)) < Pow2(k)
    decreases k
  {
    if k > 0 {
      var p := Pow2(k - 1);
      XorMod(a / 2, b / 2, k - 1);
      XorBits(a, b);
      LowBits(a, p);
      LowBits(b, p);
      ModDouble(Xor(a, b), p);
      XorBits(a % (2 * p), b % (2 * p));
    }
  }

  /** ... and those above the lowest eight from theirs. */
  lemma XorByte(a: nat, b: nat)
    ensures Xor(a, b) / 0x100 == Xor(a / 0x100, b / 0x100)
  {
    XorNibble(a, b);
    XorNibble(a / 0x10, b / 0x10);
    DivTwice(a, 0x10);
    DivTwice(b, 0x10);
  }

  lemma XorNibble(a: nat, b: nat)
    ensures Xor(a, b) / 0x10 == Xor(a / 0x10, b / 0x10)
  {
    XorPair(a, b);
    XorPair(a / 4, b / 4);
    DivTwice(a, 4);
    DivTwice(b, 4);
  }

  lemma XorPair(a: nat, b: nat)
    ensures Xor(a, b) / 4 == Xor(a / 4, b / 4)
  {
    XorBits(a, b);
    XorBits(a / 2, b / 2);
    DivTwice(a, 2);
    DivTwice(b, 2);
  }

  lemma DivTwice(x: nat, n: nat)
    requires n == 2 || n == 4 || n == 0x10
    ensures x / n / n == x / (n * n)
  {
  }

  lemma LowBits(x: nat, p: nat)
    requires p > 0
    ensures x % (2 * p) / 2 == x / 2 % p && x % (2 * p) % 2 == x % 2
  {
    ModDouble(x, p);
  }

  /** x with its low k bits, and whether bit k is set. */
  lemma TopBit(x: nat, k: nat)
    ensures x % Pow2(k + 1) == x % Pow2(k) || x % Pow2(k + 1) == x % Pow2(k) + Pow2(k)
    ensures x % Pow2(k + 1) % Pow2(k) == x % Pow2(k)
  {
    var p := Pow2(k);
    var q, r := x / p, x % p;
    assert x == q * p + r;
    assert q == 2 * (q / 2) + q % 2;
    assert x == (q / 2) * (2 * p) + (q % 2 * p + r);
    assert 0 <= q % 2 * p + r < 2 * p;
    DivUnique(x, q / 2, q % 2 * p + r, 2 * p);
    DivUnique(q % 2 * p + r, q % 2, r, p);
  }
}
