/** Values shared by both guideline engines: points, the captured viewport
    transform, screen segments, and JavaScript's `Math.round` on exact reals. */
module Geometry {

  datatype Option<T> = None | Some(value: T)

  /** A point in logical (untransformed) canvas coordinates. */
  datatype Point = Point(x: real, y: real)

  /** The parts of fabric's `viewportTransform` array that the engines read:
      entries 0 and 3 (scale) and entries 4 and 5 (translation). */
  datatype Viewport = Viewport(scaleX: real, scaleY: real, translateX: real, translateY: real)

  /** A line segment from (x1, y1) to (x2, y2). */
  datatype Segment = Segment(x1: real, y1: real, x2: real, y2: real)

  /** `Math.round`: the nearest integer, halves rounded towards +infinity.
      The ensures clause characterises the result uniquely. */
  function Round(x: real): (r: int)
    ensures r as real - 1.0 / 2.0 <= x < r as real + 1.0 / 2.0
  {
    (x + 1.0 / 2.0).Floor
  }

  /** Shifting by a whole number shifts the rounded value by the same amount. */
  lemma RoundShift(x: real, k: int)
    ensures Round(x + k as real) == Round(x) + k
  {
    var r, s := Round(x), Round(x + k as real);
    assert s - k - 1 < r < s - k + 1;
  }

  function Abs(n: int): (r: nat)
    ensures r == n || r == -n
  {
    if n < 0 then -n else n
  }
}
