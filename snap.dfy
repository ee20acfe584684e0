/** The decision logic of one `snapping` pass of the aligning engine
    (guidelines.js, `initAligningGuidelines`), stated as pure functions:
    the twelve per-candidate checks, the guide each one queues, the position
    each moving check writes, and the pass over all candidates. */
module Snap {
  import opened Geometry
  import opened Tolerance

  /** An object's centre (x, y) and the width and height of its bounding
      rectangle, all in logical units. */
  datatype Box = Box(x: real, y: real, w: real, h: real)

  /** An entry of `verticalLines`: the line at `x` from `y1` to `y2`. */
  datatype VerticalLine = VerticalLine(x: real, y1: real, y2: real)

  /** An entry of `horizontalLines`: the line at `y` from `x1` to `x2`. */
  datatype HorizontalLine = HorizontalLine(y: real, x1: real, x2: real)

  /** The checks run against each candidate, named after what they compare. */
  datatype Check =
    | CentersX           // centre x against centre x, guide only
    | CentersY           // centre y against centre y, guide only
    | ActiveRightToLeft  // active right edge against candidate left edge
    | ActiveLeftToRight  // active left edge against candidate right edge
    | ActiveTopToBottom  // active top edge against candidate bottom edge
    | ActiveBottomToTop  // active bottom edge against candidate top edge
    | SnapCentersX       // centre x against centre x
    | LeftEdges          // left edge against left edge
    | RightEdges         // right edge against right edge
    | SnapCentersY       // centre y against centre y
    | TopEdges           // top edge against top edge
    | BottomEdges        // bottom edge against bottom edge

  /** The order in which the source runs the checks for one candidate. */
  const SourceOrder: seq<Check> :=
    [CentersX, CentersY, ActiveRightToLeft, ActiveLeftToRight, ActiveTopToBottom, ActiveBottomToTop,
     SnapCentersX, LeftEdges, RightEdges, SnapCentersY, TopEdges, BottomEdges]

  /** Checks on x coordinates; they queue vertical guides and move along x. */
  predicate IsVertical(c: Check)
  {
    c.CentersX? || c.ActiveRightToLeft? || c.ActiveLeftToRight? ||
    c.SnapCentersX? || c.LeftEdges? || c.RightEdges?
  }

  /** Every check except the first two also writes the active object's position. */
  predicate Moves(c: Check)
  {
    !c.CentersX? && !c.CentersY?
  }

  function Min(a: real, b: real): real { if a <= b then a else b }

  function Max(a: real, b: real): real { if a >= b then a else b }

  /** The active object's coordinate that check `c` compares. */
  function ActiveValue(c: Check, a: Box): real
  {
    match c
    case CentersX | SnapCentersX => a.x
    case CentersY | SnapCentersY => a.y
    case ActiveRightToLeft | RightEdges => a.x + a.w / 2.0
    case ActiveLeftToRight | LeftEdges => a.x - a.w / 2.0
    case ActiveTopToBottom | TopEdges => a.y - a.h / 2.0
    case ActiveBottomToTop | BottomEdges => a.y + a.h / 2.0
  }

  /** The candidate's coordinate that check `c` compares. */
  function CandidateValue(c: Check, o: Box): real
  {
    match c
    case CentersX | SnapCentersX => o.x
    case CentersY | SnapCentersY => o.y
    case ActiveRightToLeft | LeftEdges => o.x - o.w / 2.0
    case ActiveLeftToRight | RightEdges => o.x + o.w / 2.0
    case ActiveTopToBottom | BottomEdges => o.y + o.h / 2.0
    case ActiveBottomToTop | TopEdges => o.y - o.h / 2.0
  }

  /** The `isInRange` test of check `c`, with its arguments in source order. */
  predicate Matches(c: Check, a: Box, o: Box, margin: int)
  {
    if c.ActiveRightToLeft? || c.ActiveLeftToRight? then
      InRange(ActiveValue(c, a), CandidateValue(c, o), margin)
    else
      InRange(CandidateValue(c, o), ActiveValue(c, a), margin)
  }

  /** The centre that a moving check passes to `setPositionByOrigin`. */
  function Target(c: Check, a: Box, o: Box): Point
    requires Moves(c)
  {
    match c
    case ActiveRightToLeft => Point(o.x - o.w / 2.0 - a.w / 2.0, a.y)
    case ActiveLeftToRight => Point(o.x + o.w / 2.0 + a.w / 2.0, a.y)
    case ActiveTopToBottom => Point(a.x, o.y + o.h / 2.0 + a.h / 2.0)
    case ActiveBottomToTop => Point(a.x, o.y - o.h / 2.0 - a.h / 2.0)
    case SnapCentersX => Point(o.x, a.y)
    case LeftEdges => Point(o.x - o.w / 2.0 + a.w / 2.0, a.y)
    case RightEdges => Point(o.x + o.w / 2.0 - a.w / 2.0, a.y)
    case SnapCentersY => Point(a.x, o.y)
    case TopEdges => Point(a.x, o.y - o.h / 2.0 + a.h / 2.0)
    case BottomEdges => Point(a.x, o.y + o.h / 2.0 - a.h / 2.0)
  }

  /** The active object moved so that its centre is `t`. */
  function MovedTo(a: Box, t: Point): Box
  {
    a.(x := t.x, y := t.y)
  }

  /** The vertical guide a vertical check queues; it lies on the candidate's
      compared coordinate. */
  function VGuide(c: Check, a: Box, o: Box, offset: real): (g: VerticalLine)
    requires IsVertical(c)
    ensures g.x == CandidateValue(c, o)
  {
    if c.CentersX? then
      VerticalLine(o.x, Min(o.y, a.y) - 20.0, Max(o.y, a.y) + 20.0)
    else
      VerticalLine(CandidateValue(c, o),
                   if o.y < a.y then o.y - o.h / 2.0 - offset else o.y + o.h / 2.0 + offset,
                   if a.y > o.y then a.y + a.h / 2.0 + offset else a.y - a.h / 2.0 - offset)
  }

  /** The horizontal guide a horizontal check queues; it lies on the
      candidate's compared coordinate. */
  function HGuide(c: Check, a: Box, o: Box, offset: real): (g: HorizontalLine)
    requires !IsVertical(c)
    ensures g.y == CandidateValue(c, o)
  {
    if c.CentersY? then
      HorizontalLine(o.y, Min(o.x, a.x) - 20.0, Max(o.x, a.x) + 20.0)
    else
      HorizontalLine(CandidateValue(c, o),
                     if o.x < a.x then o.x - o.w / 2.0 - offset else o.x + o.w / 2.0 + offset,
                     if a.x > o.x then a.x + a.w / 2.0 + offset else a.x - a.w / 2.0 - offset)
  }

  /** The state a pass threads through its checks: the two guide lists, the
      flags `verticalInTheRange` and `horizontalInTheRange`, and the last
      position written to the active object (None while none was written). */
  datatype Pass = Pass(vLines: seq<VerticalLine>, hLines: seq<HorizontalLine>,
                       vHit: bool, hHit: bool, moved: Option<Point>)

  function Or(first: Option<Point>, otherwise: Option<Point>): Option<Point>
  {
    if first.Some? then first else otherwise
  }

  /** One check: on a match, set the axis flag, queue the guide and, for a
      moving check, write the position. */
  function Step(p: Pass, c: Check, a: Box, o: Box, margin: int, offset: real): Pass
  {
    if !Matches(c, a, o, margin) then p
    else
      var q := if IsVertical(c) then p.(vLines := p.vLines + [VGuide(c, a, o, offset)], vHit := true)
               else p.(hLines := p.hLines + [HGuide(c, a, o, offset)], hHit := true);
      if Moves(c) then q.(moved := Some(Target(c, a, o))) else q
  }

  /** The checks `cs`, run in order against one candidate. */
  function Steps(p: Pass, cs: seq<Check>, a: Box, o: Box, margin: int, offset: real): Pass
    decreases |cs|
  {
    if cs == [] then p else Steps(Step(p, cs[0], a, o, margin, offset), cs[1..], a, o, margin, offset)
  }

  /** The candidate loop: candidates `n - 1` down to 0, skipping index `skip`,
      which holds the active object itself. */
  function Scan(p: Pass, checks: seq<Check>, a: Box, objects: seq<Box>, skip: int, n: nat, margin: int, offset: real): Pass
    requires n <= |objects|
    decreases n
  {
    if n == 0 then p
    else
      var q := if n - 1 == skip then p else Steps(p, checks, a, objects[n - 1], margin, offset);
      Scan(q, checks, a, objects, skip, n - 1, margin, offset)
  }

  // ---------------------------------------------------------------------
  // Reference definitions, independent of the order in which the pass runs

  /** Some vertical (horizontal) check of `cs` matches. */
  predicate VerticalHit(cs: seq<Check>, a: Box, o: Box, margin: int)
  {
    exists c :: c in cs && IsVertical(c) && Matches(c, a, o, margin)
  }

  predicate HorizontalHit(cs: seq<Check>, a: Box, o: Box, margin: int)
  {
    exists c :: c in cs && !IsVertical(c) && Matches(c, a, o, margin)
  }

  /** Some candidate below `n`, other than the active object, has a vertical
      (horizontal) match. */
  predicate PassVerticalHit(checks: seq<Check>, a: Box, objects: seq<Box>, skip: int, n: nat, margin: int)
    requires n <= |objects|
  {
    exists i :: 0 <= i < n && i != skip && VerticalHit(checks, a, objects[i], margin)
  }

  predicate PassHorizontalHit(checks: seq<Check>, a: Box, objects: seq<Box>, skip: int, n: nat, margin: int)
    requires n <= |objects|
  {
    exists i :: 0 <= i < n && i != skip && HorizontalHit(checks, a, objects[i], margin)
  }

  /** The target of the LAST moving check in `cs` that matches. */
  function LastMove(cs: seq<Check>, a: Box, o: Box, margin: int): Option<Point>
    decreases |cs|
  {
    if cs == [] then None
    else
      var c := cs[|cs| - 1];
      if Moves(c) && Matches(c, a, o, margin) then Some(Target(c, a, o))
      else LastMove(cs[..|cs| - 1], a, o, margin)
  }

  /** The candidates are scanned from the highest index down, so the write
      that survives comes from the LOWEST index at or above `from` and below
      `n` (other than `skip`) with a matching moving check. */
  function FinalMove(checks: seq<Check>, a: Box, objects: seq<Box>, skip: int, from: nat, n: nat, margin: int): Option<Point>
    requires n <= |objects|
    decreases n - from
  {
    if from >= n then None
    else if from != skip && LastMove(checks, a, objects[from], margin).Some? then
      LastMove(checks, a, objects[from], margin)
    else FinalMove(checks, a, objects, skip, from + 1, n, margin)
  }

  /** How many vertical checks of `cs` match. */
  function VerticalMatches(cs: seq<Check>, a: Box, o: Box, margin: int): nat
    decreases |cs|
  {
    if cs == [] then 0
    else VerticalMatch(cs[0], a, o, margin) + VerticalMatches(cs[1..], a, o, margin)
  }

  /** How many horizontal checks of `cs` match. */
  function HorizontalMatches(cs: seq<Check>, a: Box, o: Box, margin: int): nat
    decreases |cs|
  {
    if cs == [] then 0
    else HorizontalMatch(cs[0], a, o, margin) + HorizontalMatches(cs[1..], a, o, margin)
  }

  /** One if check `c` matches on the vertical (horizontal) axis, else zero. */
  function VerticalMatch(c: Check, a: Box, o: Box, margin: int): nat
  {
    if IsVertical(c) && Matches(c, a, o, margin) then 1 else 0
  }

  function HorizontalMatch(c: Check, a: Box, o: Box, margin: int): nat
  {
    if !IsVertical(c) && Matches(c, a, o, margin) then 1 else 0
  }

  /** `g` is the vertical guide that some matching vertical check of `cs`
      queues for the candidate `o`. */
  predicate QueuedVGuide(g: VerticalLine, cs: seq<Check>, a: Box, o: Box, margin: int, offset: real)
  {
    exists c :: c in cs && IsVertical(c) && Matches(c, a, o, margin) && g == VGuide(c, a, o, offset)
  }

  /** `g` is the horizontal guide that some matching horizontal check of `cs`
      queues for the candidate `o`. */
  predicate QueuedHGuide(g: HorizontalLine, cs: seq<Check>, a: Box, o: Box, margin: int, offset: real)
  {
    exists c :: c in cs && !IsVertical(c) && Matches(c, a, o, margin) && g == HGuide(c, a, o, offset)
  }

  /** `g` is queued for some candidate below `n` other than the active object. */
  predicate PassVGuide(g: VerticalLine, checks: seq<Check>, a: Box, objects: seq<Box>, skip: int, n: nat,
                       margin: int, offset: real)
    requires n <= |objects|
  {
    exists i :: 0 <= i < n && i != skip && QueuedVGuide(g, checks, a, objects[i], margin, offset)
  }

  predicate PassHGuide(g: HorizontalLine, checks: seq<Check>, a: Box, objects: seq<Box>, skip: int, n: nat,
                       margin: int, offset: real)
    requires n <= |objects|
  {
    exists i :: 0 <= i < n && i != skip && QueuedHGuide(g, checks, a, objects[i], margin, offset)
  }

  /** Some moving check of `cs` matches. */
  predicate MovingHit(cs: seq<Check>, a: Box, o: Box, margin: int)
  {
    exists c :: c in cs && Moves(c) && Matches(c, a, o, margin)
  }

  /** Some candidate below `n`, other than the active object, has a moving match. */
  predicate PassMovingHit(checks: seq<Check>, a: Box, objects: seq<Box>, skip: int, n: nat, margin: int)
    requires n <= |objects|
  {
    exists i :: 0 <= i < n && i != skip && MovingHit(checks, a, objects[i], margin)
  }

  // ---------------------------------------------------------------------
  // What one check does

  /** A moving check puts the active object's compared edge (or centre)
      exactly on the candidate's, and keeps the other coordinate of the
      captured centre. */
  lemma SnapPlacesEdge(c: Check, a: Box, o: Box)
    requires Moves(c)
    ensures ActiveValue(c, MovedTo(a, Target(c, a, o))) == CandidateValue(c, o)
    ensures IsVertical(c) ==> Target(c, a, o).y == a.y
    ensures !IsVertical(c) ==> Target(c, a, o).x == a.x
  {
  }

  /** After a moving check has snapped, the same check matches again and
      writes the same centre: a snapped check is a fixed point of that check.
      (A whole pass is not: see `Scenarios.PassNotIdempotent`.) */
  lemma SnapIsFixedPoint(c: Check, a: Box, o: Box, margin: int)
    requires Moves(c) && 0 <= margin
    ensures Matches(c, MovedTo(a, Target(c, a, o)), o, margin)
    ensures Target(c, MovedTo(a, Target(c, a, o)), o) == Target(c, a, o)
  {
    SnapPlacesEdge(c, a, o);
    InRangeReflexive(CandidateValue(c, o), margin);
  }

  /** The guide a check queues lies on the candidate's compared coordinate,
      which after a moving check is where the active object's edge now is. */
  lemma GuideMarksSnappedEdge(c: Check, a: Box, o: Box, offset: real)
    requires Moves(c)
    ensures IsVertical(c) ==> VGuide(c, a, o, offset).x == ActiveValue(c, MovedTo(a, Target(c, a, o)))
    ensures !IsVertical(c) ==> HGuide(c, a, o, offset).y == ActiveValue(c, MovedTo(a, Target(c, a, o)))
  {
    SnapPlacesEdge(c, a, o);
  }

  /** The two centre-to-centre checks that open each candidate only queue a
      guide reaching 20 units past both centres; they never write the position. */
  lemma CentreGuidesOnly(p: Pass, a: Box, o: Box, margin: int, offset: real)
    ensures Step(p, CentersX, a, o, margin, offset).moved == p.moved
    ensures Step(p, CentersY, a, o, margin, offset).moved == p.moved
    ensures var g := VGuide(CentersX, a, o, offset);
      g.x == o.x && g.y1 + 20.0 <= o.y && g.y1 + 20.0 <= a.y && (g.y1 + 20.0 == o.y || g.y1 + 20.0 == a.y) &&
      o.y <= g.y2 - 20.0 && a.y <= g.y2 - 20.0 && (g.y2 - 20.0 == o.y || g.y2 - 20.0 == a.y)
    ensures var g := HGuide(CentersY, a, o, offset);
      g.y == o.y && g.x1 + 20.0 <= o.x && g.x1 + 20.0 <= a.x && (g.x1 + 20.0 == o.x || g.x1 + 20.0 == a.x) &&
      o.x <= g.x2 - 20.0 && a.x <= g.x2 - 20.0 && (g.x2 - 20.0 == o.x || g.x2 - 20.0 == a.x)
  {
  }

  /** With non-negative sizes and offset, an edge or centre guide, once its
      ends are put in order, reaches from one object's centre to the other's. */
  lemma EdgeGuideSpansCentres(c: Check, a: Box, o: Box, offset: real)
    requires Moves(c)
    requires 0.0 <= a.w && 0.0 <= a.h && 0.0 <= o.w && 0.0 <= o.h && 0.0 <= offset
    ensures IsVertical(c) ==> var g := VGuide(c, a, o, offset);
      Min(g.y1, g.y2) <= Min(a.y, o.y) && Max(a.y, o.y) <= Max(g.y1, g.y2)
    ensures !IsVertical(c) ==> var g := HGuide(c, a, o, offset);
      Min(g.x1, g.x2) <= Min(a.x, o.x) && Max(a.x, o.x) <= Max(g.x1, g.x2)
  {
  }

  // ---------------------------------------------------------------------
  // What a whole pass does

  lemma {:induction false} LastMoveCons(c0: Check, rest: seq<Check>, a: Box, o: Box, margin: int)
    ensures LastMove([c0] + rest, a, o, margin) == Or(LastMove(rest, a, o, margin), LastMove([c0], a, o, margin))
    decreases |rest|
  {
    var cs := [c0] + rest;
    if rest == [] {
      assert cs == [c0];
    } else {
      assert cs[..|cs| - 1] == [c0] + rest[..|rest| - 1];
      LastMoveCons(c0, rest[..|rest| - 1], a, o, margin);
    }
  }

  /** `LastMove` is None exactly when no moving check matches, and otherwise
      the target of one that does. */
  lemma {:induction false} LastMoveFacts(cs: seq<Check>, a: Box, o: Box, margin: int)
    ensures LastMove(cs, a, o, margin).None? <==> !MovingHit(cs, a, o, margin)
    ensures LastMove(cs, a, o, margin).Some? ==>
      exists c :: c in cs && Moves(c) && Matches(c, a, o, margin) && LastMove(cs, a, o, margin).value == Target(c, a, o)
    decreases |cs|
  {
    if cs != [] {
      var init, c := cs[..|cs| - 1], cs[|cs| - 1];
      assert cs == init + [c];
      LastMoveFacts(init, a, o, margin);
      if MovingHit(init, a, o, margin) {
        var d :| d in init && Moves(d) && Matches(d, a, o, margin);
        assert d in cs;
      }
    }
  }

  /** The write that survives one candidate is that of the moving check at
      index `k` when it matches and no moving check after it does. */
  lemma {:induction false} LastMoveAt(cs: seq<Check>, k: nat, a: Box, o: Box, margin: int)
    requires k < |cs| && Moves(cs[k]) && Matches(cs[k], a, o, margin)
    requires forall j :: k < j < |cs| ==> !(Moves(cs[j]) && Matches(cs[j], a, o, margin))
    ensures LastMove(cs, a, o, margin) == Some(Target(cs[k], a, o))
    decreases |cs|
  {
    if k < |cs| - 1 {
      var init := cs[..|cs| - 1];
      assert !(Moves(cs[|cs| - 1]) && Matches(cs[|cs| - 1], a, o, margin));
      LastMoveAt(init, k, a, o, margin);
    }
  }

  /** One check appends its own guide to its own axis exactly when it
      matches and leaves the other list alone, sets that axis's flag, and
      writes its target when it moves. */
  lemma StepFacts(p: Pass, c: Check, a: Box, o: Box, margin: int, offset: real)
    ensures var q := Step(p, c, a, o, margin, offset);
      p.vLines <= q.vLines && p.hLines <= q.hLines &&
      q.vHit == (p.vHit || (IsVertical(c) && Matches(c, a, o, margin))) &&
      q.hHit == (p.hHit || (!IsVertical(c) && Matches(c, a, o, margin))) &&
      (|q.vLines| > |p.vLines| <==> IsVertical(c) && Matches(c, a, o, margin)) &&
      (|q.hLines| > |p.hLines| <==> !IsVertical(c) && Matches(c, a, o, margin)) &&
      q.moved == Or(LastMove([c], a, o, margin), p.moved)
    ensures var q := Step(p, c, a, o, margin, offset);
      && (!Matches(c, a, o, margin) ==> q.vLines == p.vLines && q.hLines == p.hLines)
      && (IsVertical(c) && Matches(c, a, o, margin) ==>
            q.vLines == p.vLines + [VGuide(c, a, o, offset)] && q.hLines == p.hLines)
      && (!IsVertical(c) && Matches(c, a, o, margin) ==>
            q.hLines == p.hLines + [HGuide(c, a, o, offset)] && q.vLines == p.vLines)
  {
    assert [c][..0] == [];
  }

  lemma HitsCons(c: Check, rest: seq<Check>, a: Box, o: Box, margin: int)
    ensures VerticalHit([c] + rest, a, o, margin) <==>
      (IsVertical(c) && Matches(c, a, o, margin)) || VerticalHit(rest, a, o, margin)
    ensures HorizontalHit([c] + rest, a, o, margin) <==>
      (!IsVertical(c) && Matches(c, a, o, margin)) || HorizontalHit(rest, a, o, margin)
  {
    var cs := [c] + rest;
    if VerticalHit(cs, a, o, margin) {
      var d :| d in cs && IsVertical(d) && Matches(d, a, o, margin);
      if d != c { assert d in rest; }
    }
    if HorizontalHit(cs, a, o, margin) {
      var d :| d in cs && !IsVertical(d) && Matches(d, a, o, margin);
      if d != c { assert d in rest; }
    }
    if VerticalHit(rest, a, o, margin) {
      var d :| d in rest && IsVertical(d) && Matches(d, a, o, margin);
      assert d in cs;
    }
    if HorizontalHit(rest, a, o, margin) {
      var d :| d in rest && !IsVertical(d) && Matches(d, a, o, margin);
      assert d in cs;
    }
  }

  /** Running the checks `cs` against one candidate keeps the queued guides,
      appends at least one guide to an axis exactly when a check on that axis
      matches, each appended guide being the one a matching check of that
      axis queues, sets the flags accordingly, and leaves as the written
      position that of the last matching moving check. */
  lemma {:induction false} StepsFacts(p: Pass, cs: seq<Check>, a: Box, o: Box, margin: int, offset: real)
    ensures var r := Steps(p, cs, a, o, margin, offset);
      p.vLines <= r.vLines && p.hLines <= r.hLines &&
      r.vHit == (p.vHit || VerticalHit(cs, a, o, margin)) &&
      r.hHit == (p.hHit || HorizontalHit(cs, a, o, margin)) &&
      (|r.vLines| > |p.vLines| <==> VerticalHit(cs, a, o, margin)) &&
      (|r.hLines| > |p.hLines| <==> HorizontalHit(cs, a, o, margin)) &&
      r.moved == Or(LastMove(cs, a, o, margin), p.moved)
    ensures var r := Steps(p, cs, a, o, margin, offset);
      && (forall j :: |p.vLines| <= j < |r.vLines| ==> QueuedVGuide(r.vLines[j], cs, a, o, margin, offset))
      && (forall j :: |p.hLines| <= j < |r.hLines| ==> QueuedHGuide(r.hLines[j], cs, a, o, margin, offset))
    decreases |cs|
  {
    if cs != [] {
      var c, rest := cs[0], cs[1..];
      assert cs == [c] + rest;
      var q := Step(p, c, a, o, margin, offset);
      StepFacts(p, c, a, o, margin, offset);
      StepsFacts(q, rest, a, o, margin, offset);
      LastMoveCons(c, rest, a, o, margin);
      HitsCons(c, rest, a, o, margin);
      var r := Steps(q, rest, a, o, margin, offset);
      forall j | |p.vLines| <= j < |r.vLines|
        ensures QueuedVGuide(r.vLines[j], cs, a, o, margin, offset)
      {
        if j < |q.vLines| {
          assert r.vLines[j] == q.vLines[j] == VGuide(c, a, o, offset);
        } else {
          var d :| d in rest && IsVertical(d) && Matches(d, a, o, margin) && r.vLines[j] == VGuide(d, a, o, offset);
          assert d in cs;
        }
      }
      forall j | |p.hLines| <= j < |r.hLines|
        ensures QueuedHGuide(r.hLines[j], cs, a, o, margin, offset)
      {
        if j < |q.hLines| {
          assert r.hLines[j] == q.hLines[j] == HGuide(c, a, o, offset);
        } else {
          var d :| d in rest && !IsVertical(d) && Matches(d, a, o, margin) && r.hLines[j] == HGuide(d, a, o, offset);
          assert d in cs;
        }
      }
    }
  }

  /** An element of a suffix of `s` is in every longer suffix of `s`. */
  lemma SuffixMember<T>(s: seq<T>, m: nat, k: nat, x: T)
    requires m <= k <= |s| && x in s[k..]
    ensures x in s[m..]
  {
    var j :| 0 <= j < |s[k..]| && s[k..][j] == x;
    assert s[m..][j + k - m] == x;
  }

  /** An element of a suffix of `s` is in the same suffix of any extension of `s`. */
  lemma PrefixMember<T>(s: seq<T>, t: seq<T>, m: nat, x: T)
    requires s <= t && m <= |s| && x in s[m..]
    ensures x in t[m..]
  {
    var j :| 0 <= j < |s[m..]| && s[m..][j] == x;
    assert t[m..][j] == x;
  }

  /** Conversely to `StepsFacts`: every check of `cs` that matches appends
      its own guide, one guide per matching check, so each one is among the
      guides added. */
  lemma {:induction false} StepsQueuesEvery(p: Pass, cs: seq<Check>, a: Box, o: Box, margin: int, offset: real)
    ensures var r := Steps(p, cs, a, o, margin, offset);
      && |r.vLines| == |p.vLines| + VerticalMatches(cs, a, o, margin)
      && |r.hLines| == |p.hLines| + HorizontalMatches(cs, a, o, margin)
      && (forall c :: c in cs && IsVertical(c) && Matches(c, a, o, margin) ==>
            VGuide(c, a, o, offset) in r.vLines[|p.vLines|..])
      && (forall c :: c in cs && !IsVertical(c) && Matches(c, a, o, margin) ==>
            HGuide(c, a, o, offset) in r.hLines[|p.hLines|..])
    decreases |cs|
  {
    if cs != [] {
      var c0, rest := cs[0], cs[1..];
      assert cs == [c0] + rest;
      var q := Step(p, c0, a, o, margin, offset);
      var r := Steps(q, rest, a, o, margin, offset);
      StepFacts(p, c0, a, o, margin, offset);
      StepsFacts(q, rest, a, o, margin, offset);
      StepsQueuesEvery(q, rest, a, o, margin, offset);
      forall c | c in cs && IsVertical(c) && Matches(c, a, o, margin)
        ensures VGuide(c, a, o, offset) in r.vLines[|p.vLines|..]
      {
        if c == c0 {
          PrefixMember(q.vLines, r.vLines, |p.vLines|, VGuide(c, a, o, offset));
        } else {
          assert c in rest;
          SuffixMember(r.vLines, |p.vLines|, |q.vLines|, VGuide(c, a, o, offset));
        }
      }
      forall c | c in cs && !IsVertical(c) && Matches(c, a, o, margin)
        ensures HGuide(c, a, o, offset) in r.hLines[|p.hLines|..]
      {
        if c == c0 {
          PrefixMember(q.hLines, r.hLines, |p.hLines|, HGuide(c, a, o, offset));
        } else {
          assert c in rest;
          SuffixMember(r.hLines, |p.hLines|, |q.hLines|, HGuide(c, a, o, offset));
        }
      }
    }
  }

  /** Unfolding `Steps` over the source order one check at a time. */
  lemma StepsAt(p: Pass, k: nat, a: Box, o: Box, margin: int, offset: real)
    requires k < |SourceOrder|
    ensures Steps(p, SourceOrder[k..], a, o, margin, offset) ==
      Steps(Step(p, SourceOrder[k], a, o, margin, offset), SourceOrder[k + 1..], a, o, margin, offset)
  {
    assert SourceOrder[k..][1..] == SourceOrder[k + 1..];
  }

  /** Extending the scanned range by one index at the top adds that index as
      the last resort of `FinalMove`. */
  lemma {:induction false} FinalMoveSnoc(checks: seq<Check>, a: Box, objects: seq<Box>, skip: int, from: nat, n: nat, margin: int)
    requires from < n <= |objects|
    ensures FinalMove(checks, a, objects, skip, from, n, margin) ==
      Or(FinalMove(checks, a, objects, skip, from, n - 1, margin),
         if n - 1 != skip then LastMove(checks, a, objects[n - 1], margin) else None)
    decreases n - from
  {
    if from < n - 1 {
      FinalMoveSnoc(checks, a, objects, skip, from + 1, n, margin);
    }
  }

  /** `FinalMove` is None exactly when no candidate has a moving match, and
      otherwise the target of a moving check that matches some candidate. */
  lemma {:induction false} FinalMoveFacts(checks: seq<Check>, a: Box, objects: seq<Box>, skip: int, from: nat, n: nat, margin: int)
    requires n <= |objects|
    ensures FinalMove(checks, a, objects, skip, from, n, margin).None? <==>
      !exists i :: from <= i < n && i != skip && MovingHit(checks, a, objects[i], margin)
    ensures FinalMove(checks, a, objects, skip, from, n, margin).Some? ==>
      exists i, c :: from <= i < n && i != skip && c in checks && Moves(c) && Matches(c, a, objects[i], margin) &&
        FinalMove(checks, a, objects, skip, from, n, margin).value == Target(c, a, objects[i])
    decreases n - from
  {
    if from < n {
      FinalMoveFacts(checks, a, objects, skip, from + 1, n, margin);
      LastMoveFacts(checks, a, objects[from], margin);
    }
  }

  /** Growing the candidate range by one index adds that candidate's hits,
      unless it is the active object. */
  lemma PassHitSnoc(checks: seq<Check>, a: Box, objects: seq<Box>, skip: int, n: nat, margin: int)
    requires 0 < n <= |objects|
    ensures PassVerticalHit(checks, a, objects, skip, n, margin) <==>
      PassVerticalHit(checks, a, objects, skip, n - 1, margin) ||
      (n - 1 != skip && VerticalHit(checks, a, objects[n - 1], margin))
    ensures PassHorizontalHit(checks, a, objects, skip, n, margin) <==>
      PassHorizontalHit(checks, a, objects, skip, n - 1, margin) ||
      (n - 1 != skip && HorizontalHit(checks, a, objects[n - 1], margin))
  {
  }

  /** The whole candidate loop: guides are only ever appended, an axis gains
      guides exactly when some candidate matches on it, the flags record that, and the written position is the
      one `FinalMove` describes. */
  lemma {:induction false} ScanFacts(p: Pass, checks: seq<Check>, a: Box, objects: seq<Box>, skip: int, n: nat,
                                     margin: int, offset: real)
    requires n <= |objects|
    ensures var r := Scan(p, checks, a, objects, skip, n, margin, offset);
      p.vLines <= r.vLines && p.hLines <= r.hLines &&
      r.vHit == (p.vHit || PassVerticalHit(checks, a, objects, skip, n, margin)) &&
      r.hHit == (p.hHit || PassHorizontalHit(checks, a, objects, skip, n, margin)) &&
      (|r.vLines| > |p.vLines| <==> PassVerticalHit(checks, a, objects, skip, n, margin)) &&
      (|r.hLines| > |p.hLines| <==> PassHorizontalHit(checks, a, objects, skip, n, margin)) &&
      r.moved == Or(FinalMove(checks, a, objects, skip, 0, n, margin), p.moved)
    decreases n
  {
    if n > 0 {
      var o := objects[n - 1];
      PassHitSnoc(checks, a, objects, skip, n, margin);
      FinalMoveSnoc(checks, a, objects, skip, 0, n, margin);
      if n - 1 == skip {
        ScanFacts(p, checks, a, objects, skip, n - 1, margin, offset);
      } else {
        var q := Steps(p, checks, a, o, margin, offset);
        StepsFacts(p, checks, a, o, margin, offset);
        ScanFacts(q, checks, a, objects, skip, n - 1, margin, offset);
      }
    }
  }

  /** Every guide the candidate loop appends is one that a matching check
      queues for some candidate other than the active object. */
  lemma {:induction false} ScanGuides(p: Pass, checks: seq<Check>, a: Box, objects: seq<Box>, skip: int, n: nat,
                                      margin: int, offset: real)
    requires n <= |objects|
    ensures var r := Scan(p, checks, a, objects, skip, n, margin, offset);
      && (forall j :: |p.vLines| <= j < |r.vLines| ==> PassVGuide(r.vLines[j], checks, a, objects, skip, n, margin, offset))
      && (forall j :: |p.hLines| <= j < |r.hLines| ==> PassHGuide(r.hLines[j], checks, a, objects, skip, n, margin, offset))
    decreases n
  {
    if n > 0 {
      var q := if n - 1 == skip then p else Steps(p, checks, a, objects[n - 1], margin, offset);
      if n - 1 != skip {
        StepsFacts(p, checks, a, objects[n - 1], margin, offset);
      }
      ScanFacts(q, checks, a, objects, skip, n - 1, margin, offset);
      ScanGuides(q, checks, a, objects, skip, n - 1, margin, offset);
      var r := Scan(q, checks, a, objects, skip, n - 1, margin, offset);
      forall j | |p.vLines| <= j < |r.vLines|
        ensures PassVGuide(r.vLines[j], checks, a, objects, skip, n, margin, offset)
      {
        if j < |q.vLines| {
          assert r.vLines[j] == q.vLines[j];
          assert QueuedVGuide(r.vLines[j], checks, a, objects[n - 1], margin, offset);
        } else {
          var i :| 0 <= i < n - 1 && i != skip && QueuedVGuide(r.vLines[j], checks, a, objects[i], margin, offset);
        }
      }
      forall j | |p.hLines| <= j < |r.hLines|
        ensures PassHGuide(r.hLines[j], checks, a, objects, skip, n, margin, offset)
      {
        if j < |q.hLines| {
          assert r.hLines[j] == q.hLines[j];
          assert QueuedHGuide(r.hLines[j], checks, a, objects[n - 1], margin, offset);
        } else {
          var i :| 0 <= i < n - 1 && i != skip && QueuedHGuide(r.hLines[j], checks, a, objects[i], margin, offset);
        }
      }
    }
  }

  /** Conversely to `ScanGuides`: every matching check against every
      candidate other than the active object appends its own guide. */
  lemma {:induction false} ScanQueuesEvery(p: Pass, checks: seq<Check>, a: Box, objects: seq<Box>, skip: int, n: nat,
                                           margin: int, offset: real)
    requires n <= |objects|
    ensures var r := Scan(p, checks, a, objects, skip, n, margin, offset);
      && |p.vLines| <= |r.vLines| && |p.hLines| <= |r.hLines|
      && (forall i, c :: 0 <= i < n && i != skip && c in checks && IsVertical(c) && Matches(c, a, objects[i], margin) ==>
            VGuide(c, a, objects[i], offset) in r.vLines[|p.vLines|..])
      && (forall i, c :: 0 <= i < n && i != skip && c in checks && !IsVertical(c) && Matches(c, a, objects[i], margin) ==>
            HGuide(c, a, objects[i], offset) in r.hLines[|p.hLines|..])
    decreases n
  {
    if n > 0 {
      var q := if n - 1 == skip then p else Steps(p, checks, a, objects[n - 1], margin, offset);
      var r := Scan(q, checks, a, objects, skip, n - 1, margin, offset);
      if n - 1 != skip {
        StepsFacts(p, checks, a, objects[n - 1], margin, offset);
        StepsQueuesEvery(p, checks, a, objects[n - 1], margin, offset);
      }
      ScanFacts(q, checks, a, objects, skip, n - 1, margin, offset);
      ScanQueuesEvery(q, checks, a, objects, skip, n - 1, margin, offset);
      forall i, c | 0 <= i < n && i != skip && c in checks && IsVertical(c) && Matches(c, a, objects[i], margin)
        ensures VGuide(c, a, objects[i], offset) in r.vLines[|p.vLines|..]
      {
        if i == n - 1 {
          PrefixMember(q.vLines, r.vLines, |p.vLines|, VGuide(c, a, objects[i], offset));
        } else {
          SuffixMember(r.vLines, |p.vLines|, |q.vLines|, VGuide(c, a, objects[i], offset));
        }
      }
      forall i, c | 0 <= i < n && i != skip && c in checks && !IsVertical(c) && Matches(c, a, objects[i], margin)
        ensures HGuide(c, a, objects[i], offset) in r.hLines[|p.hLines|..]
      {
        if i == n - 1 {
          PrefixMember(q.hLines, r.hLines, |p.hLines|, HGuide(c, a, objects[i], offset));
        } else {
          SuffixMember(r.hLines, |p.hLines|, |q.hLines|, HGuide(c, a, objects[i], offset));
        }
      }
    }
  }

  /** One turn of the candidate loop. */
  lemma ScanUnfold(p: Pass, checks: seq<Check>, a: Box, objects: seq<Box>, skip: int, n: nat, margin: int, offset: real)
    requires 0 < n <= |objects|
    ensures Scan(p, checks, a, objects, skip, n, margin, offset) ==
      Scan(if n - 1 == skip then p else Steps(p, checks, a, objects[n - 1], margin, offset),
           checks, a, objects, skip, n - 1, margin, offset)
  {
  }

  /** The entry at the active object's own index is never looked at. */
  lemma {:induction false} ScanIgnoresActive(p: Pass, checks: seq<Check>, a: Box, objects: seq<Box>, skip: nat, b: Box,
                                             n: nat, margin: int, offset: real)
    requires skip < |objects| && n <= |objects|
    ensures Scan(p, checks, a, objects[skip := b], skip, n, margin, offset) == Scan(p, checks, a, objects, skip, n, margin, offset)
    decreases n
  {
    if n > 0 {
      var q := if n - 1 == skip then p else Steps(p, checks, a, objects[n - 1], margin, offset);
      ScanIgnoresActive(q, checks, a, objects, skip, b, n - 1, margin, offset);
    }
  }

  /** What one `snapping` pass leaves behind: the two guide lists after the
      truncation of lines 414-420, and the position written last (None when
      none was written). */
  datatype Outcome = Outcome(vLines: seq<VerticalLine>, hLines: seq<HorizontalLine>, written: Option<Point>)

  /** The end of a pass (lines 413-420): an axis without a match drops its
      whole list. */
  function Finish(r: Pass): Outcome
  {
    Outcome(if r.vHit then r.vLines else [], if r.hHit then r.hLines else [], r.moved)
  }

  /** One `snapping` pass, starting from the queued guides `vs` and `hs`, for
      the active object `a` (its centre as captured at lines 89-91) among
      `objects`, where `skip` is the active object's own index. */
  function SnapPass(vs: seq<VerticalLine>, hs: seq<HorizontalLine>, a: Box, objects: seq<Box>,
                    skip: int, margin: int, offset: real): Outcome
  {
    Finish(Scan(Pass(vs, hs, false, false, None), SourceOrder, a, objects, skip, |objects|, margin, offset))
  }

  /** What one pass leaves behind. An axis with no match loses its whole
      list; one with a match keeps the old guides and gains new ones: the
      guides of exactly the matching checks against the other objects. The
      position is written iff some moving check matches, and the write that
      survives is the last one: lowest candidate index, then last check. */
  lemma SnapPassFacts(vs: seq<VerticalLine>, hs: seq<HorizontalLine>, a: Box, objects: seq<Box>,
                      skip: int, margin: int, offset: real)
    ensures var r := SnapPass(vs, hs, a, objects, skip, margin, offset);
      && (r.vLines == [] <==> !PassVerticalHit(SourceOrder, a, objects, skip, |objects|, margin))
      && (PassVerticalHit(SourceOrder, a, objects, skip, |objects|, margin) ==> vs <= r.vLines && |vs| < |r.vLines|)
      && (forall j :: |vs| <= j < |r.vLines| ==>
            PassVGuide(r.vLines[j], SourceOrder, a, objects, skip, |objects|, margin, offset))
      && (PassVerticalHit(SourceOrder, a, objects, skip, |objects|, margin) ==>
            forall i, c :: 0 <= i < |objects| && i != skip && c in SourceOrder && IsVertical(c) && Matches(c, a, objects[i], margin)
              ==> VGuide(c, a, objects[i], offset) in r.vLines[|vs|..])
      && (r.hLines == [] <==> !PassHorizontalHit(SourceOrder, a, objects, skip, |objects|, margin))
      && (PassHorizontalHit(SourceOrder, a, objects, skip, |objects|, margin) ==> hs <= r.hLines && |hs| < |r.hLines|)
      && (forall j :: |hs| <= j < |r.hLines| ==>
            PassHGuide(r.hLines[j], SourceOrder, a, objects, skip, |objects|, margin, offset))
      && (PassHorizontalHit(SourceOrder, a, objects, skip, |objects|, margin) ==>
            forall i, c :: 0 <= i < |objects| && i != skip && c in SourceOrder && !IsVertical(c) && Matches(c, a, objects[i], margin)
              ==> HGuide(c, a, objects[i], offset) in r.hLines[|hs|..])
      && (r.written.None? <==> !PassMovingHit(SourceOrder, a, objects, skip, |objects|, margin))
      && r.written == FinalMove(SourceOrder, a, objects, skip, 0, |objects|, margin)
      && (r.written.Some? ==>
        exists i, c :: 0 <= i < |objects| && i != skip && c in SourceOrder && Moves(c) &&
          Matches(c, a, objects[i], margin) && r.written.value == Target(c, a, objects[i]))
  {
    ScanFacts(Pass(vs, hs, false, false, None), SourceOrder, a, objects, skip, |objects|, margin, offset);
    ScanGuides(Pass(vs, hs, false, false, None), SourceOrder, a, objects, skip, |objects|, margin, offset);
    ScanQueuesEvery(Pass(vs, hs, false, false, None), SourceOrder, a, objects, skip, |objects|, margin, offset);
    FinalMoveFacts(SourceOrder, a, objects, skip, 0, |objects|, margin);
  }

  /** Whatever a pass writes keeps one coordinate of the captured centre. */
  lemma WrittenKeepsOneAxis(vs: seq<VerticalLine>, hs: seq<HorizontalLine>, a: Box, objects: seq<Box>,
                            skip: int, margin: int, offset: real)
    ensures var r := SnapPass(vs, hs, a, objects, skip, margin, offset);
      r.written.Some? ==> r.written.value.x == a.x || r.written.value.y == a.y
  {
    var r := SnapPass(vs, hs, a, objects, skip, margin, offset);
    SnapPassFacts(vs, hs, a, objects, skip, margin, offset);
    if r.written.Some? {
      var i, c :| 0 <= i < |objects| && i != skip && c in SourceOrder && Moves(c) &&
        Matches(c, a, objects[i], margin) && r.written.value == Target(c, a, objects[i]);
      SnapPlacesEdge(c, a, objects[i]);
    }
  }
}
