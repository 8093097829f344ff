/** Cosine similarity of two embedding vectors, as both embedding managers compute it, over
    the reals (no floating-point rounding). */
module Similarity {

  /** The dot product of the first |a| components. */
  function Dot(a: seq<real>, b: seq<real>): real
    requires |a| == |b|
  {
    if |a| == 0 then 0.0
    else Dot(a[..|a| - 1], b[..|b| - 1]) + a[|a| - 1] * b[|a| - 1]
  }

  /** `sqrt` behaves as the square root on the non-negative reals. */
  ghost predicate IsSqrt(sqrt: real -> real) {
    && sqrt(0.0) == 0.0
    && forall x :: 0.0 < x ==> 0.0 < sqrt(x) && sqrt(x) * sqrt(x) == x
  }

  /** The value `cosineSimilarity(between:and:)` returns: 0 unless both vectors have the same,
      non-zero length and non-zero magnitudes; otherwise the dot product over the product of
      the magnitudes. */
  function Cosine(sqrt: real -> real, a: seq<real>, b: seq<real>): real {
    if |a| != |b| || |a| == 0 then 0.0
    else
      var magnitude1 := sqrt(Dot(a, a));
      var magnitude2 := sqrt(Dot(b, b));
      if magnitude1 > 0.0 && magnitude2 > 0.0 then Dot(a, b) / (magnitude1 * magnitude2) else 0.0
  }

  /** The accumulating loop of `cosineSimilarity(between:and:)`. */
  method CosineSimilarity(sqrt: real -> real, vector1: seq<real>, vector2: seq<real>) returns (s: real)
    ensures s == Cosine(sqrt, vector1, vector2)
    ensures |vector1| != |vector2| || |vector1| == 0 ==> s == 0.0
  {
    if !(|vector1| == |vector2| && |vector1| > 0) {
      return 0.0;
    }
    var dotProduct: real := 0.0;
    var magnitude1: real := 0.0;
    var magnitude2: real := 0.0;
    for i := 0 to |vector1|
      invariant dotProduct == Dot(vector1[..i], vector2[..i])
      invariant magnitude1 == Dot(vector1[..i], vector1[..i])
      invariant magnitude2 == Dot(vector2[..i], vector2[..i])
    {
      assert vector1[..i + 1][..i] == vector1[..i];
      assert vector2[..i + 1][..i] == vector2[..i];
      dotProduct := dotProduct + vector1[i] * vector2[i];
      magnitude1 := magnitude1 + vector1[i] * vector1[i];
      magnitude2 := magnitude2 + vector2[i] * vector2[i];
    }
    assert vector1[..|vector1|] == vector1 && vector2[..|vector2|] == vector2;
    magnitude1 := sqrt(magnitude1);
    magnitude2 := sqrt(magnitude2);
    if !(magnitude1 > 0.0 && magnitude2 > 0.0) {
      return 0.0;
    }
    s := dotProduct / (magnitude1 * magnitude2);
  }

  lemma {:induction false} DotSymmetric(a: seq<real>, b: seq<real>)
    requires |a| == |b|
    ensures Dot(a, b) == Dot(b, a)
  {
    if |a| > 0 {
      DotSymmetric(a[..|a| - 1], b[..|b| - 1]);
    }
  }

  /** Similarity does not depend on the order of its arguments. */
  lemma CosineSymmetric(sqrt: real -> real, a: seq<real>, b: seq<real>)
    ensures Cosine(sqrt, a, b) == Cosine(sqrt, b, a)
  {
    if |a| == |b| {
      DotSymmetric(a, b);
    }
  }

  lemma {:induction false} DotWithZero(a: seq<real>, b: seq<real>)
    requires |a| == |b|
    requires forall i :: 0 <= i < |a| ==> a[i] == 0.0
    ensures Dot(a, b) == 0.0
  {
    if |a| > 0 {
      DotWithZero(a[..|a| - 1], b[..|b| - 1]);
    }
  }

  /** A zero magnitude (for a vector whose components are all zero) gives similarity 0,
      whichever side that vector is on. */
  lemma CosineOfZeroVector(sqrt: real -> real, a: seq<real>, b: seq<real>)
    requires IsSqrt(sqrt)
    requires forall i :: 0 <= i < |a| ==> a[i] == 0.0
    ensures Cosine(sqrt, a, b) == 0.0 && Cosine(sqrt, b, a) == 0.0
  {
    DotWithZero(a, a);
    CosineSymmetric(sqrt, a, b);
  }

  /** A vector with non-zero magnitude is perfectly similar to itself. */
  lemma CosineWithItself(sqrt: real -> real, a: seq<real>)
    requires IsSqrt(sqrt)
    requires Dot(a, a) > 0.0
    ensures Cosine(sqrt, a, a) == 1.0
  {
    var d := Dot(a, a);
    var m := sqrt(d);
    assert 0.0 < m && m * m == d;
    assert d / (m * m) == 1.0;
  }
}
