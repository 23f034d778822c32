/** The few facts about multiplying reals that the solver needs to be told. */
module RealArith {
  lemma NonNegativeProduct(x: real, y: real)
    requires x >= 0.0 && y >= 0.0
    ensures x * y >= 0.0
  {
  }

  lemma PositiveProduct(x: real, y: real)
    requires x > 0.0 && y > 0.0
    ensures x * y > 0.0
  {
  }

  lemma ProductOrder(a: real, b: real, c: real)
    requires a <= b && c >= 0.0
    ensures a * c <= b * c
  {
    NonNegativeProduct(b - a, c);
    assert (b - a) * c == b * c - a * c;
  }

  lemma StrictProductOrder(a: real, b: real, c: real)
    requires a < b && c > 0.0
    ensures a * c < b * c
  {
    PositiveProduct(b - a, c);
    assert (b - a) * c == b * c - a * c;
  }

  // A positive product has factors of one sign.
  lemma PositiveFactor(x: real, y: real)
    requires x * y > 0.0 && x > 0.0
    ensures y > 0.0
  {
    if y < 0.0 {
      PositiveProduct(x, -y);
    }
  }

  lemma SquaresGrow(x: real, y: real)
    requires 0.0 <= y < x
    ensures y * y < x * x
  {
    var d := x - y;
    assert x * x == (y + d) * (y + d) == y * y + 2.0 * (y * d) + d * d;
    assert d * d > 0.0;
    assert y * d >= 0.0;
  }

  lemma SquaresCompare(x: real, y: real)
    requires y >= 0.0 && x * x <= y * y
    ensures -y <= x <= y
  {
    assert (-x) * (-x) == x * x;
    if x > y {
      SquaresGrow(x, y);
    }
    if -x > y {
      SquaresGrow(-x, y);
    }
  }

  // Larger factors of larger values give larger products; a factor in [0, 1] shrinks.
  lemma ScaledOrder(w: real, w': real, f: real, f': real)
    requires 0.0 <= w <= w' && 0.0 <= f <= f'
    ensures 0.0 <= w * f <= w' * f'
    ensures f <= 1.0 ==> w * f <= w
  {
    NonNegativeProduct(w, f);
    ProductOrder(w, w', f);
    ProductOrder(f, f', w');
    if f <= 1.0 {
      ProductOrder(f, 1.0, w);
    }
  }

  lemma UnitProduct(r: real, p: real)
    requires -1.0 <= r <= 1.0 && 0.0 <= p <= 1.0
    ensures -1.0 <= r * p <= 1.0
  {
    NonNegativeProduct(1.0 + r, p);
    NonNegativeProduct(1.0 - r, p);
    assert (1.0 + r) * p == p + r * p;
    assert (1.0 - r) * p == p - r * p;
  }

  lemma QuotientInUnit(x: real, n: real)
    requires n > 0.0 && -n <= x <= n
    ensures -1.0 <= x / n <= 1.0
  {
    var r := x / n;
    assert r * n == x;
    if 1.0 < r {
      StrictProductOrder(1.0, r, n);
    }
    if r < -1.0 {
      StrictProductOrder(r, -1.0, n);
    }
  }

  lemma Overtakes(q: real, n: real, s: real, gap: real)
    requires s > 1.0 && n > q && q * (s - 1.0) == gap
    ensures n + gap < n * s
  {
    StrictProductOrder(q, n, s - 1.0);
    assert n * (s - 1.0) == n * s - n;
  }

  lemma NotYet(q: real, k: real, s: real, gap: real)
    requires s > 1.0 && q * (s - 1.0) == gap && k <= q
    ensures k * s <= k + gap
  {
    ProductOrder(k, q, s - 1.0);
    assert k * (s - 1.0) == k * s - k;
  }

  lemma DivisionIsMonotone(a: real, b: real, c: real, d: real)
    requires 0.0 <= a <= b && 0.0 < c <= d
    ensures 0.0 <= a / d <= b / c
    ensures a < b && c == d ==> a / d < b / c
  {
    var p, q := a / d, b / c;
    assert p * d == a && q * c == b;
    if p < 0.0 {
      StrictProductOrder(p, 0.0, d);
    }
    if q < p {
      StrictProductOrder(q, p, c);
      ProductOrder(c, d, p);
    }
  }
}
