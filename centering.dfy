/** `initCenteringGuidelines` (guidelines.js:469-579): snapping an object's
    centre to the middle of the canvas, one axis at a time. */
module Centering {
  import opened Geometry
  import opened Tolerance

  /** `CENTER_LINE_MARGIN`. */
  const CenterLineMargin: int := 4

  /** The integers from `lo` up to, not including, `lo + n`. */
  function Span(lo: int, n: nat): set<int>
  {
    if n == 0 then {} else Span(lo, n - 1) + {lo + n - 1}
  }

  lemma {:induction false} SpanMembers(lo: int, n: nat, k: int)
    ensures k in Span(lo, n) <==> lo <= k < lo + n
  {
    if n > 0 {
      SpanMembers(lo, n - 1, k);
    }
  }

  lemma {:induction false} SpanSize(lo: int, n: nat)
    ensures |Span(lo, n)| == n
  {
    if n > 0 {
      SpanMembers(lo, n - 1, lo + n - 1);
      SpanSize(lo, n - 1);
    }
  }

  /** The keys of a centre map built around `c`: every integer within
      `margin` of `c` rounded. */
  function CenterKeys(c: real, margin: int): set<int>
  {
    if margin < 0 then {} else Span(Round(c) - margin, 2 * margin + 1)
  }

  /** A map built with a non-negative margin holds exactly `2 * margin + 1`
      consecutive integers, the first of them `c - margin` rounded. */
  lemma CenterKeysShape(c: real, margin: int)
    requires 0 <= margin
    ensures CenterKeys(c, margin) == Span(Round(c - margin as real), 2 * margin + 1)
    ensures |CenterKeys(c, margin)| == 2 * margin + 1
  {
    RoundShift(c, -margin);
    SpanSize(Round(c) - margin, 2 * margin + 1);
  }

  /** A rounded coordinate is a key exactly when the coordinate is within
      the aligning engine's tolerance of the midpoint. */
  lemma CenterKeysAreInRange(x: real, c: real, margin: int)
    ensures Round(x) in CenterKeys(c, margin) <==> InRange(x, c, margin)
  {
    if 0 <= margin {
      SpanMembers(Round(c) - margin, 2 * margin + 1, Round(x));
    }
  }

  /** A coordinate whose rounded value is a key lies less than `margin + 1`
      from the midpoint, so a snap moves it by less than that. */
  lemma SnapDistance(x: real, c: real, margin: int)
    requires Round(x) in CenterKeys(c, margin)
    ensures -(margin as real + 1.0) < x - c < margin as real + 1.0
  {
    CenterKeysAreInRange(x, c, margin);
    var rx, rc := Round(x), Round(c);
    assert rx - rc <= margin && rc - rx <= margin;
    assert (rx - rc) as real <= margin as real && (rc - rx) as real <= margin as real;
  }

  /** The map-building loop (lines 482-497): steps by one from
      `c - margin` while at most `c + margin`, recording each value rounded. */
  method BuildCenterMap(c: real, margin: int) returns (keys: set<int>)
    ensures keys == CenterKeys(c, margin)
  {
    keys := {};
    var i := c - margin as real;
    var len := c + margin as real;
    ghost var j: nat := 0;
    while i <= len
      invariant i == c - margin as real + j as real
      invariant j == 0 || j <= 2 * margin + 1
      invariant keys == Span(Round(c) - margin, j)
      decreases 2 * margin + 1 - j
    {
      RoundShift(c, j - margin);
      assert c - margin as real + j as real == c + (j - margin) as real;
      keys := keys + {Round(i)};
      i := i + 1.0;
      j := j + 1;
    }
  }

  /** `showCenterLine` (lines 517-527): a centre line from (x1, y1) to
      (x2, y2) on screen, scaled by the viewport but not translated. */
  function ScaledLine(x1: real, y1: real, x2: real, y2: real, vp: Viewport): Segment
  {
    Segment(x1 * vp.scaleX, y1 * vp.scaleY, x2 * vp.scaleX, y2 * vp.scaleY)
  }

  class CenteringGuidelines {
    const canvasWidth: real
    const canvasHeight: real
    const widthCenter: real
    const heightCenter: real
    const widthCenterMap: set<int>
    const heightCenterMap: set<int>
    const margin: int

    /** `viewportTransform`, undefined until the first `mouse:down`. */
    var viewport: Option<Viewport>
    /** The two flags; `undefined` and `null` are both read as false. */
    var isInVerticalCenter: bool
    var isInHorizontalCenter: bool
    /** The centre of the object being moved (what `getCenterPoint` reads at
        line 538): the host moves it while dragging (`Drag`) and
        `object:moving` overwrites it. */
    var center: Point

    /** The values fixed when the engine is set up (lines 470-497). */
    predicate Built()
    {
      && margin == CenterLineMargin
      && widthCenter == canvasWidth / 2.0 && heightCenter == canvasHeight / 2.0
      && widthCenterMap == CenterKeys(widthCenter, margin)
      && heightCenterMap == CenterKeys(heightCenter, margin)
    }

    constructor (canvasWidth: real, canvasHeight: real, center: Point)
      ensures Built()
      ensures this.canvasWidth == canvasWidth && this.canvasHeight == canvasHeight && this.center == center
      ensures viewport.None? && !isInVerticalCenter && !isInHorizontalCenter
    {
      var wc, hc := canvasWidth / 2.0, canvasHeight / 2.0;
      var wMap := BuildCenterMap(wc, CenterLineMargin);
      var hMap := BuildCenterMap(hc, CenterLineMargin);
      this.canvasWidth, this.canvasHeight := canvasWidth, canvasHeight;
      widthCenter, heightCenter := wc, hc;
      widthCenterMap, heightCenterMap := wMap, hMap;
      margin := CenterLineMargin;
      viewport := None;
      isInVerticalCenter, isInHorizontalCenter := false, false;
      this.center := center;
    }

    /** The host moving the object before it fires `object:moving`; fabric
        does this, not the guideline code. */
    method Drag(p: Point)
      modifies this`center
      ensures center == p
    {
      center := p;
    }

    /** `mouse:down` (lines 532-534): capture the viewport transform. */
    method MouseDown(vp: Viewport)
      modifies this`viewport
      ensures viewport == Some(vp)
    {
      viewport := Some(vp);
    }

    /** `object:moving` (lines 536-557). `hasTransform` is whether the canvas
        has a current transform; without one nothing changes. */
    method ObjectMoving(hasTransform: bool)
      modifies this`isInVerticalCenter, this`isInHorizontalCenter, this`center
      ensures !hasTransform ==>
        isInVerticalCenter == old(isInVerticalCenter) && isInHorizontalCenter == old(isInHorizontalCenter) &&
        center == old(center)
      ensures hasTransform ==>
        && isInVerticalCenter == (Round(old(center).x) in widthCenterMap)
        && isInHorizontalCenter == (Round(old(center).y) in heightCenterMap)
        && center.x == (if isInVerticalCenter then widthCenter else old(center).x)
        && center.y == (if isInHorizontalCenter then heightCenter else old(center).y)
    {
      if !hasTransform {
        return;
      }
      var objectCenter := center;
      isInVerticalCenter := Round(objectCenter.x) in widthCenterMap;
      isInHorizontalCenter := Round(objectCenter.y) in heightCenterMap;
      if isInHorizontalCenter || isInVerticalCenter {
        center := Point(if isInVerticalCenter then widthCenter else objectCenter.x,
                        if isInHorizontalCenter then heightCenter else objectCenter.y);
      }
    }

    /** `after:render` (lines 565-572): the vertical centre line if that flag
        is set, then the horizontal one. Scaling by an undefined transform
        throws, which is `None`. */
    method AfterRender() returns (r: Option<seq<Segment>>)
      ensures r.None? <==> (isInVerticalCenter || isInHorizontalCenter) && viewport.None?
      ensures r.Some? ==>
        && |r.value| == (if isInVerticalCenter then 1 else 0) + (if isInHorizontalCenter then 1 else 0)
        && (isInVerticalCenter ==>
              r.value[0] == ScaledLine(widthCenter + 1.0 / 2.0, 0.0, widthCenter + 1.0 / 2.0, canvasHeight, viewport.value))
        && (isInHorizontalCenter ==>
              r.value[|r.value| - 1] ==
                ScaledLine(0.0, heightCenter + 1.0 / 2.0, canvasWidth, heightCenter + 1.0 / 2.0, viewport.value))
    {
      var lines := [];
      if isInVerticalCenter {
        if viewport.None? {
          return None;
        }
        lines := lines + [ScaledLine(widthCenter + 1.0 / 2.0, 0.0, widthCenter + 1.0 / 2.0, canvasHeight, viewport.value)];
      }
      if isInHorizontalCenter {
        if viewport.None? {
          return None;
        }
        lines := lines + [ScaledLine(0.0, heightCenter + 1.0 / 2.0, canvasWidth, heightCenter + 1.0 / 2.0, viewport.value)];
      }
      return Some(lines);
    }

    /** `mouse:up` (lines 574-578): clear both flags. */
    method MouseUp()
      modifies this`isInVerticalCenter, this`isInHorizontalCenter
      ensures !isInVerticalCenter && !isInHorizontalCenter
    {
      isInVerticalCenter, isInHorizontalCenter := false, false;
    }
  }

  /** On a built engine the x flag of `object:moving` is set exactly when the
      centre's x is within the margin of the canvas midpoint, and then the
      snap moves x by less than `margin + 1`. */
  lemma VerticalFlagInRange(g: CenteringGuidelines, x: real)
    requires g.Built()
    ensures Round(x) in g.widthCenterMap <==> InRange(x, g.widthCenter, CenterLineMargin)
    ensures Round(x) in g.widthCenterMap ==>
      -(CenterLineMargin as real + 1.0) < x - g.widthCenter < CenterLineMargin as real + 1.0
  {
    CenterKeysAreInRange(x, g.widthCenter, CenterLineMargin);
    if Round(x) in g.widthCenterMap {
      SnapDistance(x, g.widthCenter, CenterLineMargin);
    }
  }

  /** The same for y against the height midpoint. */
  lemma HorizontalFlagInRange(g: CenteringGuidelines, y: real)
    requires g.Built()
    ensures Round(y) in g.heightCenterMap <==> InRange(y, g.heightCenter, CenterLineMargin)
    ensures Round(y) in g.heightCenterMap ==>
      -(CenterLineMargin as real + 1.0) < y - g.heightCenter < CenterLineMargin as real + 1.0
  {
    CenterKeysAreInRange(y, g.heightCenter, CenterLineMargin);
    if Round(y) in g.heightCenterMap {
      SnapDistance(y, g.heightCenter, CenterLineMargin);
    }
  }

  /** On an 800 by 600 canvas, a centre at (401, 500) is one unit from the
      width midpoint and 200 from the height midpoint: only x snaps. */
  lemma EightHundredBySixHundred()
    ensures Round(401.0) in CenterKeys(400.0, CenterLineMargin)
    ensures Round(500.0) !in CenterKeys(300.0, CenterLineMargin)
    ensures Round(404.5) !in CenterKeys(400.0, CenterLineMargin)
  {
    assert Round(401.0) == 401 && Round(400.0) == 400;
    CenterKeysAreInRange(401.0, 400.0, CenterLineMargin);
    assert Round(500.0) == 500 && Round(300.0) == 300;
    CenterKeysAreInRange(500.0, 300.0, CenterLineMargin);
    assert Round(404.5) == 405;
    CenterKeysAreInRange(404.5, 400.0, CenterLineMargin);
  }
}
