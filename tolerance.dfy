/** The rounded-tolerance test `isInRange` of the aligning engine. */
module Tolerance {
  import opened Geometry

  /** The aligning engine's margin, `ALIGN_LINE_MARGIN`. */
  const AlignLineMargin: int := 4

  /** Two coordinates are in range when, each rounded to the nearest
      integer first, they differ by at most `margin`. */
  predicate InRange(value1: real, value2: real, margin: int)
  {
    Abs(Round(value1) - Round(value2)) <= margin
  }

  /** `isInRange`: rounds both values, then walks the integers from
      `value1 - margin` to `value1 + margin` looking for `value2`. */
  method IsInRange(value1: real, value2: real, margin: int) returns (r: bool)
    ensures r <==> InRange(value1, value2, margin)
  {
    var v1 := Round(value1);
    var v2 := Round(value2);
    var i := v1 - margin;
    var len := v1 + margin;
    while i <= len
      invariant v1 - margin <= i
      invariant i <= len + 1 || i == v1 - margin
      invariant !(v1 - margin <= v2 < i)
    {
      if i == v2 {
        return true;
      }
      i := i + 1;
    }
    return false;
  }

  /** The test does not depend on the order of its arguments. */
  lemma InRangeSymmetric(a: real, b: real, margin: int)
    ensures InRange(a, b, margin) <==> InRange(b, a, margin)
  {
  }

  /** A value is always in range of itself when the margin is not negative,
      and of nothing when it is. */
  lemma InRangeReflexive(a: real, margin: int)
    ensures InRange(a, a, margin) <==> 0 <= margin
  {
  }
}
