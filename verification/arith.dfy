/** Small facts of integer arithmetic the solver does not find alone. */
module Arith {

  lemma MulMono(a: int, b: int, c: nat)
    requires a <= b
    ensures a * c <= b * c
  {
  }

  lemma MulSigns(q: int, y: int)
    ensures (-q) * (-y) == q * y && (-q) * y == -(q * y) && q * (-y) == -(q * y)
  {
  }

  lemma DivMod(x: int, y: nat)
    requires y > 0
    ensures x == (x / y) * y + x % y && 0 <= x % y < y
  {
  }

  /** The quotient of a natural number by a positive one is natural. */
  lemma DivNonneg(x: nat, y: nat)
    requires y > 0
    ensures x / y >= 0
  {
    DivMod(x, y);
    if x / y < 0 {
      MulMono(x / y, -1, y);
    }
  }

  /** A remainder never exceeds the dividend. */
  lemma ModBelow(x: nat, y: nat)
    requires y > 0
    ensures x % y <= x
  {
    DivMod(x, y);
    DivNonneg(x, y);
    MulMono(0, x / y, y);
  }

  /** Euclidean quotient and remainder are the only pair that fits. */
  lemma DivModUnique(a: int, d: nat, q: int, r: int)
    requires d > 0 && a == q * d + r && 0 <= r < d
    ensures q == a / d && r == a % d
  {
    var q', r' := a / d, a % d;
    assert a == q' * d + r';
    if q < q' {
      MulMono(q + 1, q', d);
    } else if q' < q {
      MulMono(q' + 1, q, d);
    }
  }

  lemma MulMod(k: int, d: nat)
    requires d > 0
    ensures (k * d) % d == 0 && (k * d) / d == k
  {
    DivModUnique(k * d, d, k, 0);
  }

  lemma ModShift(a: int, d: nat)
    requires d > 0
    ensures (a + d) % d == a % d
  {
    DivMod(a, d);
    DivModUnique(a + d, d, a / d + 1, a % d);
  }

  /** Two distinct multiples of d are at least d apart. */
  lemma MultiplesApart(x: int, y: int, d: nat)
    requires d > 0 && x % d == 0 && y % d == 0 && x < y
    ensures y - x >= d
  {
    DivMod(x, d);
    DivMod(y, d);
    var qx, qy := x / d, y / d;
    if qy <= qx {
      MulMono(qy, qx, d);
    }
    assert y - x == (qy - qx) * d;
    MulMono(1, qy - qx, d);
  }

  /** Truncated and floored division agree on a non-negative dividend, and
      q * d never exceeds it. */
  lemma DivBelow(n: nat, d: nat)
    requires d > 0
    ensures (n / d) * d <= n < (n / d + 1) * d
  {
    DivMod(n, d);
  }
}
