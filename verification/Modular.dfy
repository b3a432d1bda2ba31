/** Powers of two, and division and remainder facts for circular buffers. */
module Modular {

  function Pow2(n: nat): (r: nat)
    ensures r >= 1
  {
    if n == 0 then 1 else 2 * Pow2(n - 1)
  }

  lemma {:induction false} Pow2Mono(m: nat, n: nat)
    requires m <= n
    ensures Pow2(m) <= Pow2(n)
  {
    if m < n { Pow2Mono(m, n - 1); }
  }

  lemma DivUnique(x: int, q: int, r: int, B: nat)
    requires B > 0 && x == q * B + r && 0 <= r < B
    ensures x / B == q && x % B == r
  {
    var q', r' := x / B, x % B;
    assert x == q' * B + r';
    if q' < q { assert (q - q') * B >= B by { assert q - q' >= 1; MulMono(1, q - q', B); } assert false; }
    if q' > q { assert (q' - q) * B >= B by { MulMono(1, q' - q, B); } assert false; }
  }

  lemma MulMono(a: int, b: int, B: nat)
    requires a <= b
    ensures a * B <= b * B
  {}

  /** (a + d) mod n, computed from a mod n. */
  lemma ModShift(a: int, d: int, n: nat)
    requires n > 0
    ensures (a % n + d) % n == (a + d) % n
  {
    var q := a / n;
    assert a == q * n + a % n;
    var x := a % n + d;
    assert x == x / n * n + x % n;
    assert a + d == (q + x / n) * n + x % n;
    DivUnique(a + d, q + x / n, x % n, n);
  }

  /** Two numbers have the same remainder exactly when n divides their difference. */
  lemma SameRemainder(x: nat, y: nat, n: nat)
    requires n > 0 && y <= x
    ensures x % n == y % n <==> (x - y) % n == 0
  {
    assert x == x / n * n + x % n && y == y / n * n + y % n;
    if x % n == y % n {
      assert x - y == (x / n - y / n) * n + 0;
      DivUnique(x - y, x / n - y / n, 0, n);
    } else if (x - y) % n == 0 {
      assert x - y == (x - y) / n * n;
      assert x == ((x - y) / n + y / n) * n + y % n;
      DivUnique(x, (x - y) / n + y / n, y % n, n);
    }
  }

  /** A multiple of n stays one when multiplied. */
  lemma MultipleTimes(d: nat, m: nat, n: nat)
    requires n > 0 && d % n == 0
    ensures d * m % n == 0
  {
    assert d == d / n * n;
    assert d * m == d / n * m * n + 0;
    DivUnique(d * m, d / n * m, 0, n);
  }

  /** Division and remainder by a product, one factor after the other. */
  lemma ModProduct(x: nat, a: nat, b: nat)
    requires a > 0 && b > 0
    ensures a * b > 0 && x / (a * b) == x / a / b
    ensures x % (a * b) / a == x / a % b && x % (a * b) % a == x % a
  {
    var y, z := x / a, x % a;
    var q, r := y / b, y % b;
    assert y == q * b + r && x == y * a + z;
    var low := r * a + z;
    assert low < a * b by { MulMono(r, b - 1, a); }
    assert x == q * (a * b) + low;
    DivUnique(x, q, low, a * b);
    DivUnique(low, r, z, a);
  }

  /** Within a window no longer than n, distinct numbers have distinct slots. */
  lemma DistinctSlots(a: int, b: int, n: nat)
    requires n > 0 && a < b < a + n
    ensures a % n != b % n
  {
    if a % n == b % n {
      assert a == a / n * n + a % n && b == b / n * n + b % n;
      var d := b / n - a / n;
      assert b - a == d * n;
      if d <= 0 { MulMono(d, 0, n); } else { MulMono(1, d, n); }
      assert false;
    }
  }
}
