/** Cosine similarity of embedding vectors, over the reals. */
module Embeddings {
  import opened Prelude

  type Vector = seq<real>

  /** The square root the host's arithmetic offers. */
  ghost predicate IsSquareRoot(sqrt: real -> real) {
    forall x: real :: x >= 0.0 ==> sqrt(x) >= 0.0 && sqrt(x) * sqrt(x) == x
  }

  function Dot(v1: Vector, v2: Vector): real
    requires |v1| == |v2|
  {
    if v1 == [] then 0.0 else v1[0] * v2[0] + Dot(v1[1..], v2[1..])
  }

  function Norm(sqrt: real -> real, v: Vector): real {
    sqrt(Dot(v, v))
  }

  function Clamp(x: real): real {
    if x < 0.0 then 0.0 else if x > 1.0 then 1.0 else x
  }

  /** Equal dimension, and neither vector is all zeros. */
  predicate Comparable(v1: Vector, v2: Vector) {
    |v1| == |v2| && Dot(v1, v1) != 0.0 && Dot(v2, v2) != 0.0
  }

  function Cosine(sqrt: real -> real, v1: Vector, v2: Vector): real
    requires |v1| == |v2|
  {
    var norms := Norm(sqrt, v1) * Norm(sqrt, v2);
    if norms == 0.0 then 0.0 else Dot(v1, v2) / norms
  }

  /** 0.0 where the cosine is undefined, else the cosine moved from [-1, 1] to [0, 1]. */
  function CosineSimilarity(sqrt: real -> real, v1: Vector, v2: Vector): real {
    if v1 == [] || v2 == [] || |v1| != |v2| then 0.0
    else if Norm(sqrt, v1) == 0.0 || Norm(sqrt, v2) == 0.0 then 0.0
    else Clamp((Cosine(sqrt, v1, v2) + 1.0) / 2.0)
  }

  // ---------- the inner product ----------

  lemma {:induction false} DotSquare(v: Vector)
    ensures Dot(v, v) >= 0.0
    ensures Dot(v, v) == 0.0 <==> forall i :: 0 <= i < |v| ==> v[i] == 0.0
  {
    if v != [] {
      DotSquare(v[1..]);
      SquareSign(v[0], v[0], Dot(v, v) - Dot(v[1..], v[1..]));
      assert v == [v[0]] + v[1..];
    }
  }

  lemma {:induction false} DotSymmetric(v1: Vector, v2: Vector)
    requires |v1| == |v2|
    ensures Dot(v1, v2) == Dot(v2, v1)
  {
    if v1 != [] {
      DotSymmetric(v1[1..], v2[1..]);
    }
  }

  /** The sign of a square `r`, its factors named apart. */
  lemma SquareSign(x: real, y: real, r: real)
    requires r == x * y && (x > 0.0 <==> y > 0.0) && (x < 0.0 <==> y < 0.0)
    ensures r >= 0.0 && (r == 0.0 <==> x == 0.0)
    decreases x < 0.0
  {
    if x > 0.0 {
      Positive(x, y);
    } else if x < 0.0 {
      assert (-x) * (-y) == x * y;
      SquareSign(-x, -y, r);
    }
  }

  lemma Regroup(a: real, b: real, c: real, d: real)
    ensures (a * b) * (c * d) == (a * c) * (b * d)
  {
  }

  lemma DifferenceOfSquares(x: real, y: real)
    ensures x * x - y * y == (x - y) * (x + y) == (y - x) * (-y - x)
  {
  }

  lemma SquareOrder(x: real, y: real)
    requires y >= 0.0 && x * x <= y * y
    ensures -y <= x <= y
  {
    DifferenceOfSquares(x, y);
    if x > y {
      Positive(x - y, x + y);
    } else if x < -y {
      Positive(y - x, -y - x);
    }
  }

  lemma SumAndDifference(p: real, q: real)
    ensures (p + q) * (p + q) == 4.0 * (p * q) + (p - q) * (p - q)
  {
  }

  /** The mean of two non-negative numbers bounds their geometric mean. */
  lemma MeanBound(x: real, p: real, q: real)
    requires p >= 0.0 && q >= 0.0 && x * x <= p * q
    ensures 2.0 * x <= p + q
  {
    SumAndDifference(p, q);
    SquareSign(p - q, p - q, (p - q) * (p - q));
    Regroup(2.0, x, 2.0, x);
    SquareOrder(2.0 * x, p + q);
  }

  lemma ScaleOrder(a: real, x: real, y: real)
    requires a >= 0.0 && x <= y
    ensures a * x <= a * y
  {
  }

  lemma ExpandSquare(x: real, d: real)
    ensures (x + d) * (x + d) == x * x + 2.0 * (x * d) + d * d
  {
  }

  lemma ExpandProduct(a: real, p: real, b: real, q: real)
    ensures (a + p) * (b + q) == a * b + a * q + b * p + p * q
  {
  }

  lemma ProductNonNegative(a: real, b: real)
    requires a >= 0.0 && b >= 0.0
    ensures a * b >= 0.0
  {
  }

  /** One coordinate more in the Cauchy-Schwarz inequality. */
  lemma OneCoordinate(a: real, b: real, d: real, p: real, q: real)
    requires p >= 0.0 && q >= 0.0 && d * d <= p * q
    ensures (a * b + d) * (a * b + d) <= (a * a + p) * (b * b + q)
  {
    var ab, aa, bb := a * b, a * a, b * b;
    SquareSign(a, a, a * a);
    SquareSign(b, b, b * b);
    SquareSign(ab, ab, ab * ab);
    Regroup(a, b, a, b);
    Regroup(ab, d, ab, d);
    Regroup(aa, q, bb, p);
    ScaleOrder(ab * ab, d * d, p * q);
    ProductNonNegative(aa, q);
    ProductNonNegative(bb, p);
    MeanBound(ab * d, aa * q, bb * p);
    ExpandSquare(ab, d);
    ExpandProduct(aa, p, bb, q);
  }

  lemma {:induction false} CauchySchwarz(v1: Vector, v2: Vector)
    requires |v1| == |v2|
    ensures Dot(v1, v2) * Dot(v1, v2) <= Dot(v1, v1) * Dot(v2, v2)
  {
    if v1 != [] {
      CauchySchwarz(v1[1..], v2[1..]);
      DotSquare(v1[1..]);
      DotSquare(v2[1..]);
      OneCoordinate(v1[0], v2[0], Dot(v1[1..], v2[1..]), Dot(v1[1..], v1[1..]), Dot(v2[1..], v2[1..]));
    }
  }

  // ---------- the similarity ----------

  lemma NormPositive(sqrt: real -> real, v: Vector)
    requires IsSquareRoot(sqrt)
    ensures Norm(sqrt, v) >= 0.0 && Norm(sqrt, v) * Norm(sqrt, v) == Dot(v, v)
    ensures Norm(sqrt, v) == 0.0 <==> Dot(v, v) == 0.0
  {
    DotSquare(v);
    SquareSign(Norm(sqrt, v), Norm(sqrt, v), Dot(v, v));
  }

  lemma DivideWithin(x: real, y: real)
    requires y > 0.0 && -y <= x <= y
    ensures -1.0 <= x / y <= 1.0
  {
    var q := x / y;
    assert q * y == x;
    if q > 1.0 {
      Positive(q - 1.0, y);
    }
    if q < -1.0 {
      Positive(-1.0 - q, y);
    }
  }

  lemma PositiveNorm(sqrt: real -> real, v: Vector)
    requires IsSquareRoot(sqrt) && Dot(v, v) != 0.0
    ensures Norm(sqrt, v) > 0.0 && Norm(sqrt, v) * Norm(sqrt, v) == Dot(v, v)
  {
    NormPositive(sqrt, v);
  }

  lemma WithinRoots(d: real, p: real, q: real, m: real, n: real, c: real)
    requires m > 0.0 && n > 0.0 && m * m == p && n * n == q && d * d <= p * q
    requires c == if m * n == 0.0 then 0.0 else d / (m * n)
    ensures -1.0 <= c <= 1.0
  {
    Regroup(m, n, m, n);
    assert p * q == (m * n) * (m * n);
    Positive(m, n);
    SquareOrder(d, m * n);
    DivideWithin(d, m * n);
  }

  lemma CosineInRange(sqrt: real -> real, v1: Vector, v2: Vector)
    requires IsSquareRoot(sqrt) && Comparable(v1, v2)
    ensures -1.0 <= Cosine(sqrt, v1, v2) <= 1.0
  {
    PositiveNorm(sqrt, v1);
    PositiveNorm(sqrt, v2);
    CauchySchwarz(v1, v2);
    WithinRoots(Dot(v1, v2), Dot(v1, v1), Dot(v2, v2), Norm(sqrt, v1), Norm(sqrt, v2),
                Cosine(sqrt, v1, v2));
  }

  /** Where the cosine is defined the clamp never bites; elsewhere the similarity is 0. Argument order is immaterial. */
  lemma SimilarityIsCosine(sqrt: real -> real, v1: Vector, v2: Vector)
    requires IsSquareRoot(sqrt)
    ensures CosineSimilarity(sqrt, v1, v2) ==
              if Comparable(v1, v2) then (Cosine(sqrt, v1, v2) + 1.0) / 2.0 else 0.0
    ensures 0.0 <= CosineSimilarity(sqrt, v1, v2) <= 1.0
    ensures CosineSimilarity(sqrt, v1, v2) == CosineSimilarity(sqrt, v2, v1)
  {
    NormPositive(sqrt, v1);
    NormPositive(sqrt, v2);
    if |v1| == |v2| {
      DotSymmetric(v1, v2);
      if Comparable(v1, v2) {
        CosineInRange(sqrt, v1, v2);
      }
    }
  }

  function Scale(c: real, v: Vector): (r: Vector)
    ensures |r| == |v|
  {
    if v == [] then [] else [c * v[0]] + Scale(c, v[1..])
  }

  lemma {:induction false} DotScale(c: real, v1: Vector, v2: Vector)
    requires |v1| == |v2|
    ensures Dot(v1, Scale(c, v2)) == c * Dot(v1, v2)
  {
    if v1 != [] {
      DotScale(c, v1[1..], v2[1..]);
      assert Dot(v1, Scale(c, v2)) == v1[0] * (c * v2[0]) + c * Dot(v1[1..], v2[1..]);
      assert v1[0] * (c * v2[0]) == c * (v1[0] * v2[0]);
    }
  }

  lemma ScaledDivision(c: real, m: real)
    requires c > 0.0 && m > 0.0
    ensures (c * (m * m)) / (m * (c * m)) == 1.0
  {
    Positive(c, m);
    Positive(m, c * m);
    assert m * (c * m) == c * (m * m);
  }

  lemma RootOfScaled(c: real, m: real, n: real)
    requires c > 0.0 && m > 0.0 && n >= 0.0 && n * n == c * (c * (m * m))
    ensures n == c * m
  {
    assert n * n == (c * m) * (c * m);
    Positive(c, m);
    SquareOrder(n, c * m);
    SquareOrder(c * m, n);
  }

  /** A vector is fully similar to every positive multiple of itself. */
  lemma SelfSimilarity(sqrt: real -> real, v: Vector, c: real)
    requires IsSquareRoot(sqrt) && c > 0.0 && Dot(v, v) != 0.0
    ensures CosineSimilarity(sqrt, v, Scale(c, v)) == 1.0
  {
    var w := Scale(c, v);
    NormPositive(sqrt, v);
    NormPositive(sqrt, w);
    DotScale(c, v, v);
    DotSymmetric(w, v);
    DotScale(c, w, v);
    var m, n := Norm(sqrt, v), Norm(sqrt, w);
    RootOfScaled(c, m, n);
    ScaledDivision(c, m);
    assert n != 0.0;
  }
}
