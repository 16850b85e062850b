/**
 * Facts about products and quotients of reals that the withdrawal proofs
 * need, kept apart so that each is proved in a small context.
 */
module RealArithmetic {

  /** A product is negative exactly when its factors have strictly opposite signs. */
  lemma ProductSign(x: real, y: real)
    ensures x * y < 0.0 <==> (x < 0.0 && y > 0.0) || (x > 0.0 && y < 0.0)
  {
    if x <= 0.0 && y <= 0.0 {
      assert x * y == (-x) * (-y);
    }
  }

  /** For positive denominators, comparing quotients is comparing cross products. */
  lemma DivisionMonotone(a: real, b: real, c: real, e: real)
    requires b > 0.0 && e > 0.0 && a * e <= c * b
    ensures a / b <= c / e
  {
    var x, y := a / b, c / e;
    var k := b * e;
    assert k > 0.0;
    assert x * k == a * e;
    assert y * k == c * b;
    assert (x - y) * k <= 0.0;
    ProductSign(x - y, k);
  }

  /** For a positive t, comparing x / t with a is comparing x with y = a*t. */
  lemma QuotientComparison(x: real, t: real, a: real, y: real)
    requires t > 0.0 && y == a * t
    ensures x / t < a <==> x < y
    ensures x / t > a <==> x > y
    ensures x / t == a <==> x == y
  {
    var q := x / t;
    assert q * t == x;
    assert x - y == (q - a) * t;
    ProductSign(q - a, t);
    ProductSign(a - q, t);
  }

  /** A fraction d = w*t, w in [0, 1), of a positive amount t is not negative and below the amount. */
  lemma FractionBelow(w: real, t: real, d: real)
    requires 0.0 <= w < 1.0 && t > 0.0 && d == w * t
    ensures 0.0 <= d < t
  {
    assert t - d == (1.0 - w) * t;
    ProductSign(1.0 - w, t);
    ProductSign(w, t);
  }

  /**
   * Taking d out of the stock part st of the total t = st + f, with f not
   * negative, leaves a positive total and does not raise the stock share.
   */
  lemma ShareAfterStockDraw(st: real, f: real, d: real, t: real, st2: real, t2: real)
    requires t == st + f && st2 == st - d && t2 == st2 + f
    requires f >= 0.0 && 0.0 <= d < t
    ensures t2 > 0.0 && st2 / t2 <= st / t
  {
    assert st2 * t - st * t2 == -(d * f);
    assert d * f >= 0.0;
    DivisionMonotone(st2, t2, st, t);
  }

  /**
   * Taking d out of the fixed part f of the total t = st + f, with st not
   * negative, leaves a positive total and does not lower the stock share.
   */
  lemma ShareAfterFixedDraw(st: real, f: real, d: real, t: real, t2: real)
    requires t == st + f && t2 == st + (f - d)
    requires st >= 0.0 && 0.0 <= d < t
    ensures t2 > 0.0 && st / t <= st / t2
  {
    assert st * t2 - st * t == -(st * d);
    assert st * d >= 0.0;
    DivisionMonotone(st, t, st, t2);
  }

  /** Both t*a and t*(1 - a) are negative exactly when t is negative and a lies strictly between 0 and 1. */
  lemma NegativeSplit(t: real, a: real, x: real, y: real)
    requires x == t * a && y == t * (1.0 - a)
    ensures (x < 0.0 && y < 0.0) <==> t < 0.0 && 0.0 < a < 1.0
  {
    ProductSign(t, a);
    ProductSign(t, 1.0 - a);
    assert x < 0.0 <==> (t < 0.0 && a > 0.0) || (t > 0.0 && a < 0.0);
    assert y < 0.0 <==> (t < 0.0 && a < 1.0) || (t > 0.0 && a > 1.0);
  }
}
