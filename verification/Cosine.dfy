/** Cosine similarity (`crates/search/src/cosine.rs`) and its range, by Cauchy-Schwarz. */
module Cosine {
  import opened RealArith

  function Dot(a: seq<real>, b: seq<real>): real
    requires |a| == |b|
  {
    if a == [] then 0.0
    else Dot(a[..|a| - 1], b[..|b| - 1]) + a[|a| - 1] * b[|b| - 1]
  }

  ghost predicate GoodSqrt(sqrt: real -> real) {
    forall x: real :: x >= 0.0 ==> sqrt(x) >= 0.0 && sqrt(x) * sqrt(x) == x
  }

  lemma {:induction false} SquareIsNonNegative(a: seq<real>)
    ensures Dot(a, a) >= 0.0
  {
    if a != [] {
      SquareIsNonNegative(a[..|a| - 1]);
    }
  }

  lemma SumOfSquares(p: real, q: real)
    ensures (p + q) * (p + q) >= 4.0 * (p * q)
  {
    assert (p + q) * (p + q) - 4.0 * (p * q) == (p - q) * (p - q);
  }

  // One coordinate more keeps the inequality.
  lemma CauchySchwarzStep(d: real, m: real, n: real, x: real, y: real)
    requires d * d <= m * n && m >= 0.0 && n >= 0.0
    ensures (d + x * y) * (d + x * y) <= (m + x * x) * (n + y * y)
  {
    var u, p, q := 2.0 * d * x * y, m * (y * y), n * (x * x);
    var z := (x * x) * (y * y);
    NonNegativeProduct(x * x, y * y);
    NonNegativeProduct(m, y * y);
    NonNegativeProduct(n, x * x);
    assert u * u == 4.0 * ((d * d) * z);
    ProductOrder(d * d, m * n, z);
    assert p * q == (m * n) * z;
    SumOfSquares(p, q);
    assert u * u <= (p + q) * (p + q);
    SquaresCompare(u, p + q);
    assert (d + x * y) * (d + x * y) == d * d + u + z;
    assert (m + x * x) * (n + y * y) == m * n + p + q + z;
  }

  lemma {:induction false} CauchySchwarz(a: seq<real>, b: seq<real>)
    requires |a| == |b|
    ensures Dot(a, b) * Dot(a, b) <= Dot(a, a) * Dot(b, b)
  {
    if a != [] {
      var (a', b') := (a[..|a| - 1], b[..|b| - 1]);
      CauchySchwarz(a', b');
      SquareIsNonNegative(a');
      SquareIsNonNegative(b');
      OneCoordinateMore(Dot(a', b'), Dot(a', a'), Dot(b', b'), a[|a| - 1], b[|b| - 1], Dot(a, b), Dot(a, a), Dot(b, b));
    }
  }

  lemma OneCoordinateMore(d: real, m: real, n: real, x: real, y: real, d': real, m': real, n': real)
    requires d * d <= m * n && m >= 0.0 && n >= 0.0 && d' == d + x * y && m' == m + x * x && n' == n + y * y
    ensures d' * d' <= m' * n'
  {
    CauchySchwarzStep(d, m, n, x, y);
  }

  // Vectors of different lengths are compared over their common prefix.
  function Similarity(a: seq<real>, b: seq<real>, sqrt: real -> real): real {
    var n := if |a| < |b| then |a| else |b|;
    OverNorms(Dot(a[..n], b[..n]), Dot(a[..n], a[..n]), Dot(b[..n], b[..n]), sqrt)
  }

  // A dot product over two norms, given their squares; zero vectors are similar to nothing.
  function OverNorms(dot: real, na: real, nb: real, sqrt: real -> real): real {
    var norms := sqrt(na) * sqrt(nb);
    if na == 0.0 || nb == 0.0 || norms == 0.0 then 0.0 else dot / norms
  }

  /** Every similarity lies in [-1, 1]. */
  lemma SimilarityInRange(a: seq<real>, b: seq<real>, sqrt: real -> real)
    requires GoodSqrt(sqrt)
    ensures -1.0 <= Similarity(a, b, sqrt) <= 1.0
  {
    var n := if |a| < |b| then |a| else |b|;
    var (u, v) := (a[..n], b[..n]);
    var (na, nb) := (Dot(u, u), Dot(v, v));
    SquareIsNonNegative(u);
    SquareIsNonNegative(v);
    CauchySchwarz(u, v);
    var (p, q) := (sqrt(na), sqrt(nb));
    assert (p * q) * (p * q) == (p * p) * (q * q);
    SquaresCompare(Dot(u, v), p * q);
    assert -(p * q) <= Dot(u, v) <= p * q;
    if na != 0.0 && nb != 0.0 && p * q != 0.0 {
      NonNegativeProduct(p, q);
      var r := Dot(u, v) / (p * q);
      QuotientInUnit(Dot(u, v), p * q);
      assert Similarity(a, b, sqrt) == r;
      assert -1.0 <= r <= 1.0;
    }
  }

  lemma {:induction false} DotIsSymmetric(a: seq<real>, b: seq<real>)
    requires |a| == |b|
    ensures Dot(a, b) == Dot(b, a)
  {
    if a != [] {
      DotIsSymmetric(a[..|a| - 1], b[..|b| - 1]);
    }
  }

  lemma OverItself(x: real, s: real)
    requires s * s == x
    ensures x != 0.0 ==> x / (s * s) == 1.0
  {
  }

  /** A vector that is not zero is entirely similar to itself. */
  lemma SelfSimilarity(a: seq<real>, sqrt: real -> real)
    requires GoodSqrt(sqrt)
    ensures Dot(a, a) != 0.0 ==> Similarity(a, a, sqrt) == 1.0
  {
    SquareIsNonNegative(a);
    assert a[..|a|] == a;
    OverItself(Dot(a, a), sqrt(Dot(a, a)));
  }

  lemma Commutes(x: real, y: real)
    ensures x * y == y * x
  {
  }

  /** Similarity has no direction. */
  lemma SimilarityIsSymmetric(a: seq<real>, b: seq<real>, sqrt: real -> real)
    ensures Similarity(a, b, sqrt) == Similarity(b, a, sqrt)
  {
    var n := if |a| < |b| then |a| else |b|;
    DotIsSymmetric(a[..n], b[..n]);
    Commutes(sqrt(Dot(a[..n], a[..n])), sqrt(Dot(b[..n], b[..n])));
  }

  function Scaled(a: seq<real>, c: real): seq<real> {
    seq(|a|, i requires 0 <= i < |a| => c * a[i])
  }

  lemma ScaledPrefix(b: seq<real>, c: real, k: nat)
    requires k <= |b|
    ensures Scaled(b, c)[..k] == Scaled(b[..k], c)
  {
    forall i | 0 <= i < k
      ensures Scaled(b, c)[..k][i] == Scaled(b[..k], c)[i]
    {
    }
  }

  lemma {:induction false} DotIsLinear(a: seq<real>, b: seq<real>, c: real)
    requires |a| == |b|
    ensures Dot(a, Scaled(b, c)) == c * Dot(a, b)
  {
    if a != [] {
      var k := |a| - 1;
      ScaledPrefix(b, c, k);
      DotIsLinear(a[..k], b[..k], c);
      Distributes(c, Dot(a[..k], b[..k]), a[k], b[k]);
    }
  }

  lemma Distributes(c: real, d: real, x: real, y: real)
    ensures c * d + x * (c * y) == c * (d + x * y)
  {
  }

  lemma {:induction false} SquareScales(b: seq<real>, c: real, c2: real)
    requires c2 == c * c
    ensures Dot(Scaled(b, c), Scaled(b, c)) == c2 * Dot(b, b)
  {
    if b != [] {
      var k := |b| - 1;
      ScaledPrefix(b, c, k);
      SquareScales(b[..k], c, c2);
      OneSquareMore(c, c2, Dot(b[..k], b[..k]), b[k]);
    }
  }

  lemma OneSquareMore(c: real, c2: real, x: real, y: real)
    requires c2 == c * c
    ensures c2 * x + (c * y) * (c * y) == c2 * (x + y * y)
  {
    assert (c * y) * (c * y) == (c * c) * (y * y);
  }

  // Vectors of one length are compared as a whole.
  lemma WholeVectors(a: seq<real>, b: seq<real>, sqrt: real -> real)
    requires |a| == |b|
    ensures Similarity(a, b, sqrt) == OverNorms(Dot(a, b), Dot(a, a), Dot(b, b), sqrt)
  {
    assert a[..|a|] == a && b[..|a|] == b;
  }

  /** Turning a vector round turns its similarity round. */
  lemma SimilarityHasASign(a: seq<real>, b: seq<real>, sqrt: real -> real)
    requires |a| == |b|
    ensures Similarity(a, Scaled(b, -1.0), sqrt) == -Similarity(a, b, sqrt)
  {
    DotIsLinear(a, b, -1.0);
    SquareScales(b, -1.0, 1.0);
    TurnedNorms(Dot(a, b), Dot(a, Scaled(b, -1.0)), Dot(a, a), Dot(b, b), sqrt);
    WholeVectors(a, b, sqrt);
    WholeVectors(a, Scaled(b, -1.0), sqrt);
  }

  lemma TurnedNorms(d: real, d': real, na: real, nb: real, sqrt: real -> real)
    requires d' == -1.0 * d
    ensures OverNorms(d', na, nb, sqrt) == -OverNorms(d, na, nb, sqrt)
  {
    if sqrt(na) * sqrt(nb) != 0.0 {
      NegatedQuotient(d, sqrt(na) * sqrt(nb));
    }
  }

  lemma NegatedQuotient(d: real, n: real)
    requires n != 0.0
    ensures (-1.0 * d) / n == -(d / n)
  {
    assert (d / n) * n == d;
    assert -(d / n) * n == -d;
  }

  lemma OneMoreCoordinate(a: seq<real>, b: seq<real>, i: nat)
    requires i < |a| && i < |b|
    ensures Dot(a[..i + 1], b[..i + 1]) == Dot(a[..i], b[..i]) + a[i] * b[i]
  {
    assert a[..i + 1][..i] == a[..i] && b[..i + 1][..i] == b[..i];
  }

  lemma WholePrefix(a: seq<real>, b: seq<real>, n: nat, sqrt: real -> real)
    requires n == if |a| < |b| then |a| else |b|
    ensures Similarity(a, b, sqrt) == OverNorms(Dot(a[..n], b[..n]), Dot(a[..n], a[..n]), Dot(b[..n], b[..n]), sqrt)
    ensures GoodSqrt(sqrt) ==> -1.0 <= Similarity(a, b, sqrt) <= 1.0
  {
    if GoodSqrt(sqrt) {
      SimilarityInRange(a, b, sqrt);
    }
  }

  /** The accumulation loop computes the similarity. */
  method CosineSimilarity(a: seq<real>, b: seq<real>, sqrt: real -> real) returns (sim: real)
    ensures sim == Similarity(a, b, sqrt)
    ensures GoodSqrt(sqrt) ==> -1.0 <= sim <= 1.0
  {
    var dot, na, nb := 0.0, 0.0, 0.0;
    var n := if |a| < |b| then |a| else |b|;
    for i := 0 to n
      invariant dot == Dot(a[..i], b[..i])
      invariant na == Dot(a[..i], a[..i]) && nb == Dot(b[..i], b[..i])
    {
      OneMoreCoordinate(a, b, i);
      OneMoreCoordinate(a, a, i);
      OneMoreCoordinate(b, b, i);
      dot := dot + a[i] * b[i];
      na := na + a[i] * a[i];
      nb := nb + b[i] * b[i];
    }
    WholePrefix(a, b, n, sqrt);
    if na == 0.0 || nb == 0.0 {
      return 0.0;
    }
    var norms := sqrt(na) * sqrt(nb);
    sim := if norms == 0.0 then 0.0 else dot / norms;
  }
}
