/** `initAligningGuidelines` (guidelines.js:17-461): the state its closure
    keeps between canvas events, and the event handlers that change it. */
module Aligning {
  import opened Geometry
  import opened Tolerance
  import opened Snap
  import opened Guides

  /** The first loop of `after:render`: each vertical guide, last first. */
  method DrawVerticals(vs: seq<VerticalLine>, zoom: real, vp: Viewport) returns (segments: seq<Segment>)
    ensures segments == DrawnVerticals(vs, zoom, vp)
  {
    segments := [];
    var i := |vs|;
    while i > 0
      invariant 0 <= i <= |vs|
      invariant segments == DrawnVerticals(vs[i..], zoom, vp)
    {
      i := i - 1;
      assert vs[i..][1..] == vs[i + 1..];
      segments := segments + [ToScreen(VerticalEnds(vs[i]), zoom, vp)];
    }
    assert vs[0..] == vs;
  }

  /** The second loop of `after:render`: each horizontal guide, last first. */
  method DrawHorizontals(hs: seq<HorizontalLine>, zoom: real, vp: Viewport) returns (segments: seq<Segment>)
    ensures segments == DrawnHorizontals(hs, zoom, vp)
  {
    segments := [];
    var i := |hs|;
    while i > 0
      invariant 0 <= i <= |hs|
      invariant segments == DrawnHorizontals(hs[i..], zoom, vp)
    {
      i := i - 1;
      assert hs[i..][1..] == hs[i + 1..];
      segments := segments + [ToScreen(HorizontalEnds(hs[i]), zoom, vp)];
    }
    assert hs[0..] == hs;
  }

  class AligningGuidelines {
    /** `aligningLineOffset`: how far edge guides reach past the objects. */
    const offset: real
    /** `aligningLineMargin`. */
    const margin: int

    /** The pending guides, drained by `after:render` and `mouse:up`. */
    var verticalLines: seq<VerticalLine>
    var horizontalLines: seq<HorizontalLine>
    /** `viewportTransform` and `zoom`, captured on `mouse:down`; the
        transform is undefined until the first `mouse:down`. */
    var viewport: Option<Viewport>
    var zoom: real
    /** The active object's centre (what `getCenterPoint` reads at line 89):
        the host moves it while dragging (`Drag`) and `snapping` overwrites it. */
    var center: Point

    /** Guides can only have been queued once a viewport was captured:
        before that, `snapping` fails at line 94 before changing anything. */
    ghost predicate Valid()
      reads this
    {
      viewport.None? ==> verticalLines == [] && horizontalLines == []
    }

    constructor (offset: real, center: Point)
      ensures Valid()
      ensures this.offset == offset && margin == AlignLineMargin && this.center == center
      ensures verticalLines == [] && horizontalLines == [] && viewport.None? && zoom == 1.0
    {
      this.offset := offset;
      margin := AlignLineMargin;
      verticalLines, horizontalLines := [], [];
      viewport := None;
      zoom := 1.0;
      this.center := center;
    }

    /** The host moving the active object before it fires `object:moving`;
        fabric does this, not the guideline code. */
    method Drag(p: Point)
      modifies this`center
      ensures center == p
    {
      center := p;
    }

    /** `mouse:down` (lines 423-426): capture the viewport transform and the zoom. */
    method MouseDown(vp: Viewport, canvasZoom: real)
      requires Valid()
      modifies this`viewport, this`zoom
      ensures Valid()
      ensures viewport == Some(vp) && zoom == canvasZoom
    {
      viewport := Some(vp);
      zoom := canvasZoom;
    }

    /** One check of `snapping` (one of the blocks at lines 115-411): on a
        match, set the axis flag, queue the guide, and for a moving check
        write the position. `moved` is the last position written, if any. */
    method ApplyCheck(ghost k: nat, c: Check, a: Box, o: Box, vHit: bool, hHit: bool, ghost moved: Option<Point>, ghost start: Point)
      returns (vHit': bool, hHit': bool, ghost moved': Option<Point>)
      requires k < |SourceOrder| && SourceOrder[k] == c
      requires moved.Some? ==> center == moved.value
      requires moved.None? ==> center == start
      modifies this`verticalLines, this`horizontalLines, this`center
      ensures Pass(verticalLines, horizontalLines, vHit', hHit', moved') ==
        Step(Pass(old(verticalLines), old(horizontalLines), vHit, hHit, moved), c, a, o, margin, offset)
      ensures Steps(Pass(old(verticalLines), old(horizontalLines), vHit, hHit, moved), SourceOrder[k..], a, o, margin, offset) ==
        Steps(Pass(verticalLines, horizontalLines, vHit', hHit', moved'), SourceOrder[k + 1..], a, o, margin, offset)
      ensures moved'.Some? ==> center == moved'.value
      ensures moved'.None? ==> center == start
    {
      StepsAt(Pass(verticalLines, horizontalLines, vHit, hHit, moved), k, a, o, margin, offset);
      vHit', hHit', moved' := vHit, hHit, moved;
      var hit;
      if c.ActiveRightToLeft? || c.ActiveLeftToRight? {
        hit := IsInRange(ActiveValue(c, a), CandidateValue(c, o), margin);
      } else {
        hit := IsInRange(CandidateValue(c, o), ActiveValue(c, a), margin);
      }
      if hit {
        if IsVertical(c) {
          vHit' := true;
          verticalLines := verticalLines + [VGuide(c, a, o, offset)];
        } else {
          hHit' := true;
          horizontalLines := horizontalLines + [HGuide(c, a, o, offset)];
        }
        if Moves(c) {
          center := Target(c, a, o);
          moved' := Some(center);
        }
      }
    }

    /** Centre against centre, guide only (lines 115-133). Leaves the state
        the pass reaches after checks 0 and 1 of `SourceOrder`. */
    method CheckCentres(a: Box, o: Box, vHit: bool, hHit: bool, ghost moved: Option<Point>, ghost start: Point)
      returns (vHit': bool, hHit': bool, ghost moved': Option<Point>)
      requires moved.Some? ==> center == moved.value
      requires moved.None? ==> center == start
      modifies this`verticalLines, this`horizontalLines, this`center
      ensures Steps(Pass(old(verticalLines), old(horizontalLines), vHit, hHit, moved), SourceOrder[0..], a, o, margin, offset) ==
        Steps(Pass(verticalLines, horizontalLines, vHit', hHit', moved'), SourceOrder[2..], a, o, margin, offset)
      ensures moved'.Some? ==> center == moved'.value
      ensures moved'.None? ==> center == start
    {
      vHit', hHit', moved' := vHit, hHit, moved;
      vHit', hHit', moved' := ApplyCheck(0, CentersX, a, o, vHit', hHit', moved', start);
      vHit', hHit', moved' := ApplyCheck(1, CentersY, a, o, vHit', hHit', moved', start);
    }

    /** A side of the active object against the facing side of the candidate (lines 135-193).
        Leaves the state the pass reaches after checks 2 and 3 of `SourceOrder`. */
    method CheckFacingSides(a: Box, o: Box, vHit: bool, hHit: bool, ghost moved: Option<Point>, ghost start: Point)
      returns (vHit': bool, hHit': bool, ghost moved': Option<Point>)
      requires moved.Some? ==> center == moved.value
      requires moved.None? ==> center == start
      modifies this`verticalLines, this`horizontalLines, this`center
      ensures Steps(Pass(old(verticalLines), old(horizontalLines), vHit, hHit, moved), SourceOrder[2..], a, o, margin, offset) ==
        Steps(Pass(verticalLines, horizontalLines, vHit', hHit', moved'), SourceOrder[4..], a, o, margin, offset)
      ensures moved'.Some? ==> center == moved'.value
      ensures moved'.None? ==> center == start
    {
      vHit', hHit', moved' := vHit, hHit, moved;
      vHit', hHit', moved' := ApplyCheck(2, ActiveRightToLeft, a, o, vHit', hHit', moved', start);
      vHit', hHit', moved' := ApplyCheck(3, ActiveLeftToRight, a, o, vHit', hHit', moved', start);
    }

    /** The bottom or top of the candidate against the facing end of the active object (lines 195-253).
        Leaves the state the pass reaches after checks 4 and 5 of `SourceOrder`. */
    method CheckFacingEnds(a: Box, o: Box, vHit: bool, hHit: bool, ghost moved: Option<Point>, ghost start: Point)
      returns (vHit': bool, hHit': bool, ghost moved': Option<Point>)
      requires moved.Some? ==> center == moved.value
      requires moved.None? ==> center == start
      modifies this`verticalLines, this`horizontalLines, this`center
      ensures Steps(Pass(old(verticalLines), old(horizontalLines), vHit, hHit, moved), SourceOrder[4..], a, o, margin, offset) ==
        Steps(Pass(verticalLines, horizontalLines, vHit', hHit', moved'), SourceOrder[6..], a, o, margin, offset)
      ensures moved'.Some? ==> center == moved'.value
      ensures moved'.None? ==> center == start
    {
      vHit', hHit', moved' := vHit, hHit, moved;
      vHit', hHit', moved' := ApplyCheck(4, ActiveTopToBottom, a, o, vHit', hHit', moved', start);
      vHit', hHit', moved' := ApplyCheck(5, ActiveBottomToTop, a, o, vHit', hHit', moved', start);
    }

    /** Centre, left edge and right edge against the same of the candidate (lines 255-332).
        Leaves the state the pass reaches after checks 6 to 8 of `SourceOrder`. */
    method CheckColumns(a: Box, o: Box, vHit: bool, hHit: bool, ghost moved: Option<Point>, ghost start: Point)
      returns (vHit': bool, hHit': bool, ghost moved': Option<Point>)
      requires moved.Some? ==> center == moved.value
      requires moved.None? ==> center == start
      modifies this`verticalLines, this`horizontalLines, this`center
      ensures Steps(Pass(old(verticalLines), old(horizontalLines), vHit, hHit, moved), SourceOrder[6..], a, o, margin, offset) ==
        Steps(Pass(verticalLines, horizontalLines, vHit', hHit', moved'), SourceOrder[9..], a, o, margin, offset)
      ensures moved'.Some? ==> center == moved'.value
      ensures moved'.None? ==> center == start
    {
      vHit', hHit', moved' := vHit, hHit, moved;
      vHit', hHit', moved' := ApplyCheck(6, SnapCentersX, a, o, vHit', hHit', moved', start);
      vHit', hHit', moved' := ApplyCheck(7, LeftEdges, a, o, vHit', hHit', moved', start);
      vHit', hHit', moved' := ApplyCheck(8, RightEdges, a, o, vHit', hHit', moved', start);
    }

    /** Centre, top edge and bottom edge against the same of the candidate (lines 334-411).
        Leaves the state the pass reaches after checks 9 to 11 of `SourceOrder`. */
    method CheckRows(a: Box, o: Box, vHit: bool, hHit: bool, ghost moved: Option<Point>, ghost start: Point)
      returns (vHit': bool, hHit': bool, ghost moved': Option<Point>)
      requires moved.Some? ==> center == moved.value
      requires moved.None? ==> center == start
      modifies this`verticalLines, this`horizontalLines, this`center
      ensures Steps(Pass(old(verticalLines), old(horizontalLines), vHit, hHit, moved), SourceOrder[9..], a, o, margin, offset) ==
        Steps(Pass(verticalLines, horizontalLines, vHit', hHit', moved'), SourceOrder[12..], a, o, margin, offset)
      ensures moved'.Some? ==> center == moved'.value
      ensures moved'.None? ==> center == start
    {
      vHit', hHit', moved' := vHit, hHit, moved;
      vHit', hHit', moved' := ApplyCheck(9, SnapCentersY, a, o, vHit', hHit', moved', start);
      vHit', hHit', moved' := ApplyCheck(10, TopEdges, a, o, vHit', hHit', moved', start);
      vHit', hHit', moved' := ApplyCheck(11, BottomEdges, a, o, vHit', hHit', moved', start);
    }

    /** The body of the candidate loop (lines 108-411): the twelve checks in
        source order against candidate `o`. */
    method CheckCandidate(a: Box, o: Box, vHit: bool, hHit: bool, ghost moved: Option<Point>, ghost start: Point)
      returns (vHit': bool, hHit': bool, ghost moved': Option<Point>)
      requires moved.Some? ==> center == moved.value
      requires moved.None? ==> center == start
      modifies this`verticalLines, this`horizontalLines, this`center
      ensures Pass(verticalLines, horizontalLines, vHit', hHit', moved') ==
        Steps(Pass(old(verticalLines), old(horizontalLines), vHit, hHit, moved), SourceOrder, a, o, margin, offset)
      ensures moved'.Some? ==> center == moved'.value
      ensures moved'.None? ==> center == start
    {
      assert SourceOrder[0..] == SourceOrder && SourceOrder[12..] == [];
      vHit', hHit', moved' := CheckCentres(a, o, vHit, hHit, moved, start);
      vHit', hHit', moved' := CheckFacingSides(a, o, vHit', hHit', moved', start);
      vHit', hHit', moved' := CheckFacingEnds(a, o, vHit', hHit', moved', start);
      vHit', hHit', moved' := CheckColumns(a, o, vHit', hHit', moved', start);
      vHit', hHit', moved' := CheckRows(a, o, vHit', hHit', moved', start);
    }

    /** One turn of the candidate loop: the checks against `objects[i]`,
        unless it is the active object itself (lines 105-106). */
    method VisitCandidate(a: Box, objects: seq<Box>, activeIndex: int, i: nat,
                          vHit: bool, hHit: bool, ghost moved: Option<Point>, ghost start: Point)
      returns (vHit': bool, hHit': bool, ghost moved': Option<Point>)
      requires i < |objects|
      requires moved.Some? ==> center == moved.value
      requires moved.None? ==> center == start
      modifies this`verticalLines, this`horizontalLines, this`center
      ensures Scan(Pass(old(verticalLines), old(horizontalLines), vHit, hHit, moved), SourceOrder, a, objects, activeIndex,
                   i + 1, margin, offset)
           == Scan(Pass(verticalLines, horizontalLines, vHit', hHit', moved'), SourceOrder, a, objects, activeIndex,
                   i, margin, offset)
      ensures moved'.Some? ==> center == moved'.value
      ensures moved'.None? ==> center == start
    {
      ScanUnfold(Pass(verticalLines, horizontalLines, vHit, hHit, moved), SourceOrder, a, objects, activeIndex, i + 1, margin, offset);
      vHit', hHit', moved' := vHit, hHit, moved;
      if i != activeIndex {
        vHit', hHit', moved' := CheckCandidate(a, objects[i], vHit, hHit, moved, start);
      }
    }

    /** The candidate loop of `snapping` (lines 105-412): every object from
        the last index to the first, except the active object itself. */
    method ScanCandidates(a: Box, objects: seq<Box>, activeIndex: int)
      returns (verticalInTheRange: bool, horizontalInTheRange: bool, ghost moved: Option<Point>)
      modifies this`verticalLines, this`horizontalLines, this`center
      ensures Pass(verticalLines, horizontalLines, verticalInTheRange, horizontalInTheRange, moved) ==
        Scan(Pass(old(verticalLines), old(horizontalLines), false, false, None), SourceOrder, a, objects, activeIndex,
             |objects|, margin, offset)
      ensures moved.Some? ==> center == moved.value
      ensures moved.None? ==> center == old(center)
    {
      ghost var start := Pass(verticalLines, horizontalLines, false, false, None);
      ghost var position := center;
      verticalInTheRange, horizontalInTheRange, moved := false, false, None;
      var i := |objects|;
      while i > 0
        invariant 0 <= i <= |objects|
        invariant Scan(Pass(verticalLines, horizontalLines, verticalInTheRange, horizontalInTheRange, moved),
                       SourceOrder, a, objects, activeIndex, i, margin, offset)
               == Scan(start, SourceOrder, a, objects, activeIndex, |objects|, margin, offset)
        invariant moved.Some? ==> center == moved.value
        invariant moved.None? ==> center == position
      {
        i := i - 1;
        verticalInTheRange, horizontalInTheRange, moved :=
          VisitCandidate(a, objects, activeIndex, i, verticalInTheRange, horizontalInTheRange, moved, position);
      }
    }

    /** Lines 105-420 of `snapping`: the candidate loop, then an axis without
        a match drops its whole list. */
    method RunPass(a: Box, objects: seq<Box>, activeIndex: int)
      modifies this`verticalLines, this`horizontalLines, this`center
      ensures var r := SnapPass(old(verticalLines), old(horizontalLines), a, objects, activeIndex, margin, offset);
        && verticalLines == r.vLines && horizontalLines == r.hLines
        && (r.written.Some? ==> center == r.written.value)
        && (r.written.None? ==> center == old(center))
    {
      var verticalInTheRange, horizontalInTheRange, moved := ScanCandidates(a, objects, activeIndex);
      if !horizontalInTheRange {
        horizontalLines := [];
      }
      if !verticalInTheRange {
        verticalLines := [];
      }
    }

    /** `snapping` (lines 86-421), run by `object:moving`, `object:scaling` and
        `object:rotating`. `objects` is the canvas's object list with logical
        sizes, `activeIndex` the active object's own index in it (any other
        number when it is not in the list), and `hasTransform` whether the
        canvas has a current transform. */
    method Snapping(objects: seq<Box>, activeIndex: int, activeWidth: real, activeHeight: real, hasTransform: bool)
      requires Valid()
      modifies this`verticalLines, this`horizontalLines, this`center
      ensures Valid()
      ensures old(viewport).None? || !hasTransform ==>
        verticalLines == old(verticalLines) && horizontalLines == old(horizontalLines) && center == old(center)
      ensures old(viewport).Some? && hasTransform ==>
        var r := SnapPass(old(verticalLines), old(horizontalLines),
                          Box(old(center).x, old(center).y, activeWidth, activeHeight),
                          objects, activeIndex, margin, offset);
        && verticalLines == r.vLines && horizontalLines == r.hLines
        && (r.written.Some? ==> center == r.written.value)
        && (r.written.None? ==> center == old(center))
    {
      if viewport.None? {
        // `viewportTransform[3]` of an undefined transform throws at line 94
        return;
      }
      var a := Box(center.x, center.y, activeWidth, activeHeight);
      if !hasTransform {
        return;
      }
      RunPass(a, objects, activeIndex);
    }

    /** `after:render` (lines 446-455): the segments it draws, in drawing
        order; both lists are left empty. */
    method AfterRender() returns (segments: seq<Segment>)
      requires Valid()
      modifies this`verticalLines, this`horizontalLines
      ensures Valid()
      ensures verticalLines == [] && horizontalLines == []
      ensures segments == if viewport.Some? then Rendered(old(verticalLines), old(horizontalLines), zoom, viewport.value) else []
    {
      segments := [];
      if viewport.Some? {
        var verticals := DrawVerticals(verticalLines, zoom, viewport.value);
        var horizontals := DrawHorizontals(horizontalLines, zoom, viewport.value);
        segments := verticals + horizontals;
      }
      verticalLines, horizontalLines := [], [];
    }

    /** `mouse:up` (lines 457-460): drop every pending guide. */
    method MouseUp()
      requires Valid()
      modifies this`verticalLines, this`horizontalLines
      ensures Valid()
      ensures verticalLines == [] && horizontalLines == []
    {
      verticalLines, horizontalLines := [], [];
    }
  }
}
