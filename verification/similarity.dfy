/** Cosine similarity between embedding vectors. The floating-point square
    roots and the final division are an abstract `Quotient`; the guard, the
    accumulation loop and the quantities it feeds to the division are exact. */
module Similarity {
  import opened Outcomes

  type Vector = seq<real>

  /** The expression `dot / (Math.sqrt(aMag) * Math.sqrt(bMag))`. */
  type Quotient = (real, real, real) -> real

  /** Sum of `a[i] * b[i]` over the first `n` indices, accumulated left to right. */
  function Dot(a: Vector, b: Vector, n: nat): real
    requires n <= |a| && n <= |b|
  {
    if n == 0 then 0.0 else Dot(a, b, n - 1) + a[n - 1] * b[n - 1]
  }

  /** Sum of the squared components: `aMag` in the loop. */
  function SqNorm(a: Vector): real {
    Dot(a, a, |a|)
  }

  /** The loop of `cosineSimilarity` computes the dot product and the two
      squared magnitudes in one pass. */
  method Accumulate(a: Vector, b: Vector) returns (dot: real, aMag: real, bMag: real)
    requires |a| == |b|
    ensures dot == Dot(a, b, |a|) && aMag == SqNorm(a) && bMag == SqNorm(b)
    ensures aMag >= 0.0 && bMag >= 0.0
  {
    dot, aMag, bMag := 0.0, 0.0, 0.0;
    var i := 0;
    while i < |a|
      invariant i <= |a|
      invariant dot == Dot(a, b, i) && aMag == Dot(a, a, i) && bMag == Dot(b, b, i)
    {
      dot := dot + a[i] * b[i];
      aMag := aMag + a[i] * a[i];
      bMag := bMag + b[i] * b[i];
      i := i + 1;
    }
    SqNormNonNegative(a, |a|);
    SqNormNonNegative(b, |b|);
  }

  lemma {:induction false} SqNormNonNegative(a: Vector, n: nat)
    requires n <= |a|
    ensures Dot(a, a, n) >= 0.0
  {
    if n > 0 {
      SqNormNonNegative(a, n - 1);
    }
  }

  /** A zero vector makes both the dot product and its own squared magnitude
      0, so the source evaluates 0 / 0 (NaN), not 0. */
  lemma {:induction false} ZeroVectorGivesZeroOverZero(a: Vector, b: Vector, n: nat)
    requires n <= |a| && n <= |b|
    requires forall i :: 0 <= i < n ==> a[i] == 0.0
    ensures Dot(a, b, n) == 0.0 && Dot(a, a, n) == 0.0
  {
    if n > 0 {
      ZeroVectorGivesZeroOverZero(a, b, n - 1);
    }
  }

  lemma {:induction false} DotSymmetric(a: Vector, b: Vector, n: nat)
    requires n <= |a| && n <= |b|
    ensures Dot(a, b, n) == Dot(b, a, n)
  {
    if n > 0 {
      DotSymmetric(a, b, n - 1);
    }
  }

  /** The first `n` products see only the first `m >= n` components. */
  lemma {:induction false} DotPrefix(a: Vector, b: Vector, m: nat, n: nat)
    requires n <= m <= |a| && m <= |b|
    ensures Dot(a, b, n) == Dot(a[..m], b[..m], n)
  {
    if n > 0 {
      DotPrefix(a, b, m, n - 1);
    }
  }

  /** `cosineSimilarity(a, b)`: 0 when a vector is missing or the lengths
      differ, otherwise the quotient of the dot product by the magnitudes. */
  function CosineSimilarity(a: Option<Vector>, b: Option<Vector>, quotient: Quotient): (r: real)
    ensures a.None? || b.None? || |a.value| != |b.value| ==> r == 0.0
    ensures a.Some? && b.Some? && |a.value| == |b.value| ==>
      r == quotient(Dot(a.value, b.value, |a.value|), SqNorm(a.value), SqNorm(b.value))
  {
    if a.None? || b.None? || |a.value| != |b.value| then 0.0
    else quotient(Dot(a.value, b.value, |a.value|), SqNorm(a.value), SqNorm(b.value))
  }

  /** The score does not depend on the argument order, given that the product
      of the two square roots does not. */
  lemma CosineSymmetric(a: Option<Vector>, b: Option<Vector>, quotient: Quotient)
    requires forall d, x, y :: quotient(d, x, y) == quotient(d, y, x)
    ensures CosineSimilarity(a, b, quotient) == CosineSimilarity(b, a, quotient)
  {
    if a.Some? && b.Some? && |a.value| == |b.value| {
      DotSymmetric(a.value, b.value, |a.value|);
    }
  }
}
