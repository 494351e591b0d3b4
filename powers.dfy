/** Exact real powers standing for `std::pow` with a non-negative integer exponent. */
module Powers {

  /** x raised to the natural power n. */
  function Pow(x: real, n: nat): real
    decreases n
  {
    if n == 0 then 1.0 else x * Pow(x, n - 1)
  }

  lemma {:induction false} PowAdd(x: real, a: nat, b: nat)
    ensures Pow(x, a + b) == Pow(x, a) * Pow(x, b)
    decreases a
  {
    if a > 0 {
      PowAdd(x, a - 1, b);
      assert Pow(x, a + b) == x * Pow(x, a - 1 + b);
    }
  }

  lemma {:induction false} PowMul(x: real, y: real, n: nat)
    ensures Pow(x * y, n) == Pow(x, n) * Pow(y, n)
    decreases n
  {
    if n > 0 {
      PowMul(x, y, n - 1);
      var a, b := Pow(x, n - 1), Pow(y, n - 1);
      assert Pow(x * y, n) == (x * y) * (a * b);
      assert (x * y) * (a * b) == (x * a) * (y * b);
    }
  }

  lemma {:induction false} PowPositive(x: real, n: nat)
    requires x > 0.0
    ensures Pow(x, n) > 0.0
    decreases n
  {
    if n > 0 {
      PowPositive(x, n - 1);
    }
  }

  lemma {:induction false} PowNonzero(x: real, n: nat)
    requires x != 0.0
    ensures Pow(x, n) != 0.0
    decreases n
  {
    if n > 0 {
      PowNonzero(x, n - 1);
    }
  }

  lemma {:induction false} PowOfZero(n: nat)
    requires n > 0
    ensures Pow(0.0, n) == 0.0
  {
  }

  lemma {:induction false} PowOfOne(n: nat)
    ensures Pow(1.0, n) == 1.0
    decreases n
  {
    if n > 0 {
      PowOfOne(n - 1);
    }
  }

  lemma {:induction false} PowEvenNonNegative(x: real, n: nat)
    ensures Pow(x, 2 * n) >= 0.0
    decreases n
  {
    if n > 0 {
      PowEvenNonNegative(x, n - 1);
      PowAdd(x, 2, 2 * (n - 1));
      assert 2 + 2 * (n - 1) == 2 * n;
      SqIsPow(x);
      SqFacts(x);
      ProductNonNegative(Pow(x, 2), Pow(x, 2 * (n - 1)));
    }
  }

  /** Raising to a power is monotone on the positive reals. */
  lemma {:induction false} PowMonotone(a: real, b: real, n: nat)
    requires 0.0 < a <= b
    ensures 0.0 < Pow(a, n) <= Pow(b, n)
    decreases n
  {
    if n > 0 {
      PowMonotone(a, b, n - 1);
      PowPositive(a, n - 1);
      MultiplyMonotone(a, Pow(a, n - 1), b, Pow(b, n - 1));
    }
  }

  lemma MultiplyMonotone(a: real, x: real, b: real, y: real)
    requires 0.0 < a <= b && 0.0 < x <= y
    ensures 0.0 < a * x <= b * y
  {
    ProductPositive(a, x);
    assert b * y - a * x == (b - a) * y + a * (y - x);
    ProductNonNegative(b - a, y);
    ProductNonNegative(a, y - x);
  }

  lemma {:induction false} PowPow(x: real, a: nat, b: nat)
    ensures Pow(Pow(x, a), b) == Pow(x, a * b)
    decreases b
  {
    if b > 0 {
      PowPow(x, a, b - 1);
      PowAdd(x, a, a * (b - 1));
      assert a + a * (b - 1) == a * b;
    }
  }

  lemma {:induction false} PowQuotient(x: real, y: real, n: nat)
    requires y != 0.0
    ensures Pow(y, n) != 0.0
    ensures Pow(x / y, n) == Pow(x, n) / Pow(y, n)
    decreases n
  {
    PowNonzero(y, n);
    if n > 0 {
      PowQuotient(x, y, n - 1);
      PowNonzero(y, n - 1);
      QuotientProduct(x, y, Pow(x, n - 1), Pow(y, n - 1));
    }
  }

  /** The identity on reals; `Sq` multiplies through it (see `Sq`). */
  function Id(x: real): real { x }

  /**
   * x squared. It is written as the product of x and `Id(x)` so that the solver
   * treats it as a product of two factors; `SqIsPow` ties it to `Pow(x, 2)`.
   */
  function Sq(x: real): real { x * Id(x) }

  /** Every square is non-negative and only the square of zero is zero. */
  lemma SqFacts(x: real)
    ensures Sq(x) >= 0.0
    ensures Sq(x) == 0.0 <==> x == 0.0
  {
  }

  lemma SqIsPow(x: real)
    ensures Sq(x) == Pow(x, 2)
  {
  }

  /** Squaring is strictly increasing on the non-negative reals. */
  lemma SqMonotone(a: real, b: real)
    requires 0.0 <= b < a
    ensures Sq(b) < Sq(a)
  {
    ProductPositive(a - b, a + b);
    assert Sq(a) - Sq(b) == (a - b) * (a + b);
  }

  lemma ProductPositive(a: real, b: real)
    requires a > 0.0 && b > 0.0
    ensures a * b > 0.0
  {
  }

  lemma SqScale(c: real, x: real)
    ensures Sq(c * x) == Sq(c) * Sq(x)
  {
  }

  lemma SqNeg(x: real)
    ensures Sq(-x) == Sq(x)
  {
  }

  /** The absolute value of a double (`abs` in the force pass). */
  function Abs(x: real): (r: real)
    ensures r >= 0.0 && (r == x || r == -x)
  {
    if x < 0.0 then -x else x
  }

  lemma ProductNonNegative(a: real, b: real)
    ensures a >= 0.0 && b >= 0.0 ==> a * b >= 0.0
  {
  }

  lemma QuotientProduct(a: real, b: real, c: real, d: real)
    requires b != 0.0 && d != 0.0
    ensures b * d != 0.0
    ensures (a / b) * (c / d) == (a * c) / (b * d)
  {
    var q, r := a / b, c / d;
    assert q * b == a && r * d == c;
    assert (q * r) * (b * d) == (q * b) * (r * d);
  }
}
