/** The coordinate logic of `drawVerticalLine`, `drawHorizontalLine` and
    `drawLine` (guidelines.js:26-60), and the list of segments that the
    aligning engine's `after:render` handler draws. The canvas calls
    themselves (dash pattern, colour, stroke) are not modelled. */
module Guides {
  import opened Geometry
  import opened Snap

  /** `drawVerticalLine`: half a unit to the right of the guide, ends ordered
      from the smaller y to the larger. */
  function VerticalEnds(l: VerticalLine): (s: Segment)
    ensures s.x1 == s.x2 == l.x + 1.0 / 2.0
    ensures s.y1 <= s.y2
    ensures multiset{s.y1, s.y2} == multiset{l.y1, l.y2}
  {
    Segment(l.x + 1.0 / 2.0, if l.y1 > l.y2 then l.y2 else l.y1,
            l.x + 1.0 / 2.0, if l.y2 > l.y1 then l.y2 else l.y1)
  }

  /** `drawHorizontalLine`: half a unit below the guide, ends ordered from the
      smaller x to the larger. */
  function HorizontalEnds(l: HorizontalLine): (s: Segment)
    ensures s.y1 == s.y2 == l.y + 1.0 / 2.0
    ensures s.x1 <= s.x2
    ensures multiset{s.x1, s.x2} == multiset{l.x1, l.x2}
  {
    Segment(if l.x1 > l.x2 then l.x2 else l.x1, l.y + 1.0 / 2.0,
            if l.x2 > l.x1 then l.x2 else l.x1, l.y + 1.0 / 2.0)
  }

  /** The inverse of `ToScreen` for a non-zero zoom. */
  function ToLogical(r: Segment, zoom: real, vp: Viewport): Segment
    requires zoom != 0.0
  {
    Segment((r.x1 - vp.translateX) / zoom, (r.y1 - vp.translateY) / zoom,
            (r.x2 - vp.translateX) / zoom, (r.y2 - vp.translateY) / zoom)
  }

  /** `drawLine`: each logical coordinate p becomes p * zoom + translate. */
  function ToScreen(s: Segment, zoom: real, vp: Viewport): Segment
  {
    Segment(s.x1 * zoom + vp.translateX, s.y1 * zoom + vp.translateY,
            s.x2 * zoom + vp.translateX, s.y2 * zoom + vp.translateY)
  }

  /** For a non-zero zoom the screen map loses nothing: mapping back gives
      the logical segment. */
  lemma ToScreenRoundTrip(s: Segment, zoom: real, vp: Viewport)
    requires zoom != 0.0
    ensures ToLogical(ToScreen(s, zoom, vp), zoom, vp) == s
  {
  }

  lemma ScaleKeepsOrder(u: real, v: real, zoom: real)
    requires u <= v && 0.0 < zoom
    ensures u * zoom <= v * zoom
  {
    assert (v - u) * zoom >= 0.0;
  }

  /** Under a positive zoom, an ordered segment stays ordered on screen. */
  lemma ToScreenKeepsOrder(s: Segment, zoom: real, vp: Viewport)
    requires 0.0 < zoom && s.x1 <= s.x2 && s.y1 <= s.y2
    ensures var r := ToScreen(s, zoom, vp); r.x1 <= r.x2 && r.y1 <= r.y2
  {
    var r := ToScreen(s, zoom, vp);
    ScaleKeepsOrder(s.x1, s.x2, zoom);
    assert r.x1 == s.x1 * zoom + vp.translateX && r.x2 == s.x2 * zoom + vp.translateX;
    ScaleKeepsOrder(s.y1, s.y2, zoom);
    assert r.y1 == s.y1 * zoom + vp.translateY && r.y2 == s.y2 * zoom + vp.translateY;
  }

  /** The vertical guides drawn by `after:render`, which walks the list from
      its last entry to its first. */
  function DrawnVerticals(vs: seq<VerticalLine>, zoom: real, vp: Viewport): seq<Segment>
  {
    if vs == [] then [] else DrawnVerticals(vs[1..], zoom, vp) + [ToScreen(VerticalEnds(vs[0]), zoom, vp)]
  }

  /** The k-th vertical segment drawn is the k-th guide from the end. */
  lemma {:induction false} DrawnVerticalsAt(vs: seq<VerticalLine>, zoom: real, vp: Viewport)
    ensures |DrawnVerticals(vs, zoom, vp)| == |vs|
    ensures forall k :: 0 <= k < |vs| ==>
      DrawnVerticals(vs, zoom, vp)[k] == ToScreen(VerticalEnds(vs[|vs| - 1 - k]), zoom, vp)
  {
    if vs != [] {
      DrawnVerticalsAt(vs[1..], zoom, vp);
    }
  }

  /** The horizontal guides drawn by `after:render`, last entry first. */
  function DrawnHorizontals(hs: seq<HorizontalLine>, zoom: real, vp: Viewport): seq<Segment>
  {
    if hs == [] then [] else DrawnHorizontals(hs[1..], zoom, vp) + [ToScreen(HorizontalEnds(hs[0]), zoom, vp)]
  }

  /** The k-th horizontal segment drawn is the k-th guide from the end. */
  lemma {:induction false} DrawnHorizontalsAt(hs: seq<HorizontalLine>, zoom: real, vp: Viewport)
    ensures |DrawnHorizontals(hs, zoom, vp)| == |hs|
    ensures forall k :: 0 <= k < |hs| ==>
      DrawnHorizontals(hs, zoom, vp)[k] == ToScreen(HorizontalEnds(hs[|hs| - 1 - k]), zoom, vp)
  {
    if hs != [] {
      DrawnHorizontalsAt(hs[1..], zoom, vp);
    }
  }

  /** Everything one `after:render` draws: the vertical guides, then the
      horizontal ones. */
  function Rendered(vs: seq<VerticalLine>, hs: seq<HorizontalLine>, zoom: real, vp: Viewport): seq<Segment>
  {
    DrawnVerticals(vs, zoom, vp) + DrawnHorizontals(hs, zoom, vp)
  }
}
