/** L2 normalisation over the reals: unit length, and cosine ranking equal to inner-product ranking. */
module Vectors {
  import opened Collections

  type Vector = seq<real>

  function Times(x: real, y: real): real {
    x * y
  }

  function Dot(a: Vector, b: Vector): real
    requires |a| == |b|
  {
    if a == [] then 0.0 else Times(a[0], b[0]) + Dot(a[1..], b[1..])
  }

  /** `norm` is the exact square root that `math.sqrt` approximates. */
  predicate IsNorm(norm: real, v: Vector) {
    norm >= 0.0 && Times(norm, norm) == Dot(v, v)
  }

  function Scaled(v: Vector, norm: real): Vector
    requires norm != 0.0
  {
    if v == [] then [] else [v[0] / norm] + Scaled(v[1..], norm)
  }

  /** The normalised vector, or nothing when the dimension is wrong. */
  function FinalizeVector(values: Vector, norm: real, expectedDim: int): Option<Vector>
    requires IsNorm(norm, values)
  {
    if |values| != expectedDim then None
    else if norm == 0.0 then Some(values)
    else Some(Scaled(values, norm))
  }

  lemma {:induction false} ScaledShape(v: Vector, norm: real)
    requires norm != 0.0
    ensures |Scaled(v, norm)| == |v|
  {
    if v != [] {
      ScaledShape(v[1..], norm);
    }
  }

  /** Dividing both arguments divides the inner product. */
  lemma {:induction false} DotScaled(a: Vector, b: Vector, m: real, n: real)
    requires |a| == |b| && m != 0.0 && n != 0.0
    ensures |Scaled(a, m)| == |Scaled(b, n)|
    ensures Dot(Scaled(a, m), Scaled(b, n)) * (m * n) == Dot(a, b)
  {
    ScaledShape(a, m);
    ScaledShape(b, n);
    if a != [] {
      DotScaled(a[1..], b[1..], m, n);
      var rest := Dot(Scaled(a[1..], m), Scaled(b[1..], n));
      ProductScaled(a[0], b[0], m, n);
      Distribute(a[0] / m * (b[0] / n), rest, m * n);
    }
  }

  lemma SquareSign(x: real)
    ensures if x == 0.0 then Times(x, x) == 0.0 else Times(x, x) > 0.0
  {
    SameSign(x, x);
  }

  lemma SameSign(x: real, y: real)
    ensures (x > 0.0 && y > 0.0) || (x < 0.0 && y < 0.0) ==> Times(x, y) > 0.0
  {
  }

  lemma Distribute(x: real, y: real, k: real)
    ensures (x + y) * k == x * k + y * k
  {
  }

  lemma ProductScaled(x: real, y: real, m: real, n: real)
    requires m != 0.0 && n != 0.0
    ensures x / m * (y / n) * (m * n) == x * y
  {
    var p, q := x / m, y / n;
    assert p * m == x && q * n == y;
    assert p * q * (m * n) == (p * m) * (q * n);
  }

  ghost predicate NonZero(v: Vector) {
    exists i :: 0 <= i < |v| && v[i] != 0.0
  }

  lemma {:induction false} DotSelf(v: Vector)
    ensures if NonZero(v) then Dot(v, v) > 0.0 else Dot(v, v) == 0.0
  {
    if v != [] {
      DotSelf(v[1..]);
      SquareSign(v[0]);
      assert NonZero(v) <==> v[0] != 0.0 || NonZero(v[1..]) by {
        assert forall i :: 1 <= i < |v| ==> v[i] == v[1..][i - 1];
      }
    }
  }

  lemma {:induction false} ScaledBack(v: Vector, norm: real)
    requires norm != 0.0
    ensures |Scaled(v, norm)| == |v| && forall i :: 0 <= i < |v| ==> Times(Scaled(v, norm)[i], norm) == v[i]
  {
    if v != [] {
      ScaledBack(v[1..], norm);
      assert v[0] / norm * norm == v[0];
      forall i | 0 <= i < |v| ensures Times(Scaled(v, norm)[i], norm) == v[i] {
        if i > 0 {
          assert Scaled(v, norm)[i] == Scaled(v[1..], norm)[i - 1] && v[i] == v[1..][i - 1];
        }
      }
    }
  }

  /** A finalized non-zero vector points the way the given one does: that is a positive multiple of it. */
  lemma FinalizedKeepsDirection(values: Vector, norm: real, expectedDim: int)
    requires IsNorm(norm, values) && |values| == expectedDim && NonZero(values)
    ensures FinalizeVector(values, norm, expectedDim).Some?
    ensures var v := FinalizeVector(values, norm, expectedDim).value;
      norm > 0.0 && |v| == |values| && forall i :: 0 <= i < |v| ==> v[i] * norm == values[i]
  {
    DotSelf(values);
    SquareSign(norm);
    ScaledBack(values, norm);
    var v := FinalizeVector(values, norm, expectedDim).value;
    forall i | 0 <= i < |v| ensures v[i] * norm == values[i] {
      assert Times(v[i], norm) == values[i];
    }
  }

  /** The length is kept, a zero vector is returned unchanged, any other becomes a unit vector. */
  lemma FinalizedIsUnit(values: Vector, norm: real, expectedDim: int)
    requires IsNorm(norm, values)
    ensures FinalizeVector(values, norm, expectedDim).Some? <==> |values| == expectedDim
    ensures |values| == expectedDim ==>
      var v := FinalizeVector(values, norm, expectedDim).value;
      && |v| == expectedDim
      && (NonZero(values) ==> Dot(v, v) == 1.0)
      && (!NonZero(values) ==> v == values)
  {
    DotSelf(values);
    SquareSign(norm);
    assert norm != 0.0 <==> NonZero(values);
    if |values| == expectedDim && NonZero(values) {
      DotScaled(values, values, norm, norm);
      ScaledShape(values, norm);
      CancelOne(Dot(Scaled(values, norm), Scaled(values, norm)), Times(norm, norm), Dot(values, values));
    }
  }

  lemma CancelOne(d: real, k: real, x: real)
    requires k > 0.0 && d * k == x && x == k
    ensures d == 1.0
  {
    assert (d - 1.0) * k == 0.0;
  }

  // Cauchy-Schwarz for unit vectors, in any dimension.

  /** The squared length of `a + b`, or of `a - b`. */
  function SquaredSum(a: Vector, b: Vector, plus: bool): real
    requires |a| == |b|
  {
    if a == [] then 0.0 else
    var x := if plus then a[0] + b[0] else a[0] - b[0];
    Times(x, x) + SquaredSum(a[1..], b[1..], plus)
  }

  lemma {:induction false} SquaredSumExpands(a: Vector, b: Vector, plus: bool)
    requires |a| == |b|
    ensures SquaredSum(a, b, plus) >= 0.0
    ensures SquaredSum(a, b, plus) == Dot(a, a) + Dot(b, b) + (if plus then 2.0 * Dot(a, b) else -2.0 * Dot(a, b))
  {
    if a != [] {
      var x, y := a[0], b[0];
      SquaredSumExpands(a[1..], b[1..], plus);
      SquareSign(x + y);
      SquareSign(x - y);
      assert (x + y) * (x + y) == x * x + 2.0 * (x * y) + y * y;
      assert (x - y) * (x - y) == x * x - 2.0 * (x * y) + y * y;
    }
  }

  lemma UnitDotBounded(a: Vector, b: Vector)
    requires |a| == |b| && Dot(a, a) == 1.0 && Dot(b, b) == 1.0
    ensures -1.0 <= Dot(a, b) <= 1.0
  {
    SquaredSumExpands(a, b, true);
    SquaredSumExpands(a, b, false);
  }

  /** Cosine similarity, given the two norms. */
  function Cosine(a: Vector, b: Vector, m: real, n: real): real
    requires |a| == |b| && m * n != 0.0
  {
    Dot(a, b) / (m * n)
  }

  /** The cosine of the raw vectors is the inner product of the finalized ones, and lies in [-1, 1]. */
  lemma CosineIsInnerProduct(a: Vector, b: Vector, m: real, n: real)
    requires |a| == |b| && IsNorm(m, a) && IsNorm(n, b) && NonZero(a) && NonZero(b)
    ensures m * n != 0.0
    ensures var u, v := FinalizeVector(a, m, |a|).value, FinalizeVector(b, n, |b|).value;
      |u| == |v| && Cosine(a, b, m, n) == Dot(u, v) && -1.0 <= Dot(u, v) <= 1.0
  {
    FinalizedIsUnit(a, m, |a|);
    FinalizedIsUnit(b, n, |b|);
    DotSelf(a);
    DotSelf(b);
    SquareSign(m);
    SquareSign(n);
    assert m != 0.0 && n != 0.0;
    NonZeroProduct(m, n);
    DotScaled(a, b, m, n);
    var d := Dot(Scaled(a, m), Scaled(b, n));
    QuotientOf(d, m * n, Dot(a, b));
    UnitDotBounded(Scaled(a, m), Scaled(b, n));
  }

  lemma NonZeroProduct(m: real, n: real)
    requires m != 0.0 && n != 0.0
    ensures m * n != 0.0
  {
  }

  lemma QuotientOf(d: real, k: real, x: real)
    requires k != 0.0 && d * k == x
    ensures x / k == d
  {
    assert x / k * k == x;
    assert (x / k - d) * k == 0.0;
  }

  /** Ranking articles against a user by cosine, or by inner product of the stored vectors, is the same. */
  lemma RankingsAgree(user: Vector, a: Vector, b: Vector, nu: real, na: real, nb: real)
    requires |user| == |a| == |b| && IsNorm(nu, user) && IsNorm(na, a) && IsNorm(nb, b)
    requires NonZero(user) && NonZero(a) && NonZero(b)
    ensures nu * na != 0.0 && nu * nb != 0.0
    ensures var u := FinalizeVector(user, nu, |user|).value;
      var x, y := FinalizeVector(a, na, |a|).value, FinalizeVector(b, nb, |b|).value;
      && |u| == |x| == |y|
      && (Cosine(user, a, nu, na) > Cosine(user, b, nu, nb) <==> Dot(u, x) > Dot(u, y))
      && (Cosine(user, a, nu, na) == Cosine(user, b, nu, nb) <==> Dot(u, x) == Dot(u, y))
  {
    CosineIsInnerProduct(user, a, nu, na);
    CosineIsInnerProduct(user, b, nu, nb);
  }
}
