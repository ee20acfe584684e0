/** Worked checks of the aligning engine on two objects. */
module Scenarios {
  import opened Geometry
  import opened Tolerance
  import opened Snap

  /** Two 40 by 30 objects centred at (100, 100) and (100, 300): the x checks
      on centres, left edges and right edges match and every x snap leaves
      the centre where it is; no y check matches. */
  lemma SameColumn(a: Box, o: Box)
    requires a == Box(100.0, 100.0, 40.0, 30.0) && o == Box(100.0, 300.0, 40.0, 30.0)
    ensures forall c :: IsVertical(c) && !c.ActiveRightToLeft? && !c.ActiveLeftToRight? ==>
      Matches(c, a, o, AlignLineMargin) && (Moves(c) ==> Target(c, a, o) == Point(100.0, 100.0))
    ensures !Matches(ActiveRightToLeft, a, o, AlignLineMargin) && !Matches(ActiveLeftToRight, a, o, AlignLineMargin)
    ensures forall c :: !IsVertical(c) ==> !Matches(c, a, o, AlignLineMargin)
  {
    assert Round(100.0) == 100 && Round(80.0) == 80 && Round(120.0) == 120;
    assert Round(300.0) == 300 && Round(85.0) == 85 && Round(115.0) == 115;
    assert Round(285.0) == 285 && Round(315.0) == 315;
  }

  /** The active object's right edge at 150 and a candidate's left edge at
      152: the right-to-left check matches and moves the active object 2
      units to the right, leaving y alone. */
  lemma RightEdgeMeetsLeftEdge(a: Box, o: Box)
    requires a == Box(130.0, 100.0, 40.0, 30.0) && o == Box(172.0, 400.0, 40.0, 30.0)
    ensures Matches(ActiveRightToLeft, a, o, AlignLineMargin)
    ensures Target(ActiveRightToLeft, a, o) == Point(132.0, 100.0)
  {
    assert Round(150.0) == 150 && Round(152.0) == 152;
  }

  /** Three units apart the right-to-left check matches; five units apart
      it does not. */
  lemma MarginBoundary(a: Box, o: Box, o': Box)
    requires a == Box(130.0, 100.0, 40.0, 30.0)
    requires o == Box(173.0, 100.0, 40.0, 30.0) && o' == Box(175.0, 100.0, 40.0, 30.0)
    ensures Matches(ActiveRightToLeft, a, o, AlignLineMargin)
    ensures !Matches(ActiveRightToLeft, a, o', AlignLineMargin)
  {
    assert Round(150.0) == 150 && Round(153.0) == 153 && Round(155.0) == 155;
  }

  /** Nothing about a 40 by 30 object at (106, 400) is within range of one at
      (100, 100). */
  lemma FarBelow(a: Box, o: Box)
    requires a == Box(100.0, 100.0, 40.0, 30.0) && o == Box(106.0, 400.0, 40.0, 30.0)
    ensures forall c :: !Matches(c, a, o, AlignLineMargin)
  {
    assert Round(100.0) == 100 && Round(80.0) == 80 && Round(120.0) == 120;
    assert Round(106.0) == 106 && Round(86.0) == 86 && Round(126.0) == 126;
    assert Round(85.0) == 85 && Round(115.0) == 115 && Round(400.0) == 400;
    assert Round(385.0) == 385 && Round(415.0) == 415;
  }

  /** An object whose candidate is a few units to its right, far below: the
      right-edge check is the last moving check that matches. */
  lemma NearColumn(a: Box, o: Box)
    requires (a == Box(100.0, 100.0, 40.0, 30.0) && o == Box(104.0, 700.0, 40.0, 30.0)) ||
             (a == Box(104.0, 100.0, 40.0, 30.0) && o == Box(106.0, 400.0, 40.0, 30.0))
    ensures LastMove(SourceOrder, a, o, AlignLineMargin) == Some(Point(o.x, 100.0))
  {
    assert Round(100.0) == 100 && Round(104.0) == 104 && Round(106.0) == 106;
    assert Round(120.0) == 120 && Round(124.0) == 124 && Round(126.0) == 126;
    assert Round(85.0) == 85 && Round(115.0) == 115 && Round(400.0) == 400 && Round(700.0) == 700;
    assert Round(385.0) == 385 && Round(415.0) == 415 && Round(685.0) == 685 && Round(715.0) == 715;
    assert SourceOrder[8] == RightEdges;
    assert Matches(RightEdges, a, o, AlignLineMargin);
    assert !Matches(SnapCentersY, a, o, AlignLineMargin);
    assert !Matches(TopEdges, a, o, AlignLineMargin);
    assert !Matches(BottomEdges, a, o, AlignLineMargin);
    LastMoveAt(SourceOrder, 8, a, o, AlignLineMargin);
  }

  /** A whole pass is not idempotent. From x = 100 the candidate at index 1
      (x = 104) is the only one in range, so the pass writes x = 104; from
      there the candidate at index 0 (x = 106) is in range too and, being
      visited last, its write survives: x = 106. */
  lemma PassNotIdempotent(a: Box, b: Box, objects: seq<Box>)
    requires a == Box(100.0, 100.0, 40.0, 30.0) && b == Box(104.0, 100.0, 40.0, 30.0)
    requires objects == [Box(106.0, 400.0, 40.0, 30.0), Box(104.0, 700.0, 40.0, 30.0), a]
    ensures SnapPass([], [], a, objects, 2, AlignLineMargin, 0.0).written == Some(Point(104.0, 100.0))
    ensures SnapPass([], [], b, objects[2 := b], 2, AlignLineMargin, 0.0).written == Some(Point(106.0, 100.0))
  {
    SnapPassFacts([], [], a, objects, 2, AlignLineMargin, 0.0);
    SnapPassFacts([], [], b, objects[2 := b], 2, AlignLineMargin, 0.0);
    FarBelow(a, objects[0]);
    LastMoveFacts(SourceOrder, a, objects[0], AlignLineMargin);
    NearColumn(a, objects[1]);
    NearColumn(b, objects[2 := b][0]);
  }
}
