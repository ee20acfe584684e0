# Snapping guidelines for a fabric.js canvas, in Dafny

`guidelines.js` adds two helpers to a fabric.js canvas.

- **The aligning engine** (`initAligningGuidelines`) runs on every move, scale
  or rotate of the active object. It compares the object's centre and
  bounding-box edges with those of every other object on the canvas. Each
  comparison that falls within `ALIGN_LINE_MARGIN` (4 units, after rounding
  both sides) queues a dashed guide. Ten of the twelve comparisons also move
  the active object so that the compared edge or centre lands exactly on the
  other object's. The guides are drawn on the next `after:render` and then
  dropped.
- **The centering engine** (`initCenteringGuidelines`) snaps a moving
  object's centre to the canvas midpoint, each axis on its own. It does so
  when the rounded centre lies in a small window of integers around the
  midpoint, and it then draws a centre line across the canvas.

Modules, one per file:

- `geometry.dfy`, module `Geometry`: points, the viewport transform,
  segments, and `Math.round` on exact reals (the nearest integer, halves
  rounded up).
- `tolerance.dfy`, module `Tolerance`: `isInRange` as a counting loop, proved
  against the predicate "the rounded values differ by at most the margin".
- `snap.dfy`, module `Snap`: one `snapping` pass as pure functions.
  - The twelve checks are values of a `Check` datatype. `Step` is one check,
    `Steps` is the twelve in source order, and `Scan` is the candidate loop
    from the last index down to the first.
  - Beside them are reference definitions independent of the recursion the
    pass runs: which axes matched, and which write survives (`FinalMove`).
  - Lemmas tie the pass to those definitions.
- `guides.dfy`, module `Guides`: the endpoint ordering of `drawVerticalLine`
  and `drawHorizontalLine`, the `p * zoom + translate` map of `drawLine`, and
  the list of segments `after:render` draws.
- `aligning.dfy`, module `Aligning`: the closure state of
  `initAligningGuidelines` as the class `AligningGuidelines`.
  - Its fields are the two guide lists, the captured viewport and zoom, and
    the active object's centre.
  - Its methods are the event handlers.
  - `snapping` runs as straight-line calls, one per check, inside the
    candidate loop, and each method is proved equal to the pure pass.
- `centering.dfy`, module `Centering`: the map-building loops, the class
  `CenteringGuidelines` with its flags and handlers, and what the keys of a
  centre map are.
- `scenarios.dfy`, module `Scenarios`: worked checks on concrete objects.

Inputs the model takes as parameters:

- the canvas object list, as centres and logical sizes;
- the active object's index in that list;
- whether the canvas has a current transform (`canvas._currentTransform`);
- the viewport transform and the zoom at `mouse:down`;
- the canvas size;
- the guide offset, since `ALIGN_LINE_OFFSET` is never given a value.

A position write (`setPositionByOrigin` with centre origin) is an assignment
to the `center` field.

## Model

| member | source | states |
|---|---|---|
| `Geometry.Round` | guidelines.js:69-70 | `Math.round` gives the unique integer r with r - 1/2 <= x < r + 1/2 |
| `Tolerance.IsInRange` | guidelines.js:68-81 | the loop from `value1 - margin` to `value1 + margin` returns true iff the rounded values differ by at most the margin |
| `Tolerance.InRangeSymmetric` | guidelines.js:68-81 | the test gives the same answer with its arguments swapped |
| `Tolerance.InRangeReflexive` | guidelines.js:68-81 | a value is in range of itself iff the margin is not negative |
| `Snap.Matches` | guidelines.js:116-390 | the `isInRange` test of each check, with the compared coordinates and argument order of its block (definition; `Tolerance.IsInRange` proves the test) |
| `Snap.Target` | guidelines.js:155-410 | the centre each moving check passes to `setPositionByOrigin` (definition; `Snap.SnapPlacesEdge` states what it achieves) |
| `Snap.VGuide` | guidelines.js:115-411 | the vertical guide a vertical check pushes (definition; `Snap.GuideMarksSnappedEdge`, `Snap.CentreGuidesOnly` and `Snap.EdgeGuideSpansCentres` state where it lies) |
| `Snap.HGuide` | guidelines.js:115-411 | the horizontal guide a horizontal check pushes (definition; `Snap.GuideMarksSnappedEdge`, `Snap.CentreGuidesOnly` and `Snap.EdgeGuideSpansCentres` state where it lies) |
| `Snap.Step` | guidelines.js:115-411 | one check block: on a match, set the axis flag, push the guide and, for a moving check, write the position (definition; `Snap.StepFacts` states its effect) |
| `Snap.Steps` | guidelines.js:108-411 | the twelve blocks run in source order against one candidate (definition; `Snap.StepsFacts` states its effect) |
| `Snap.Scan` | guidelines.js:105-412 | the candidate loop from the last index down, skipping the active object (definition; `Snap.ScanFacts` and `Snap.ScanGuides` state its effect) |
| `Snap.Finish` | guidelines.js:413-420 | an axis without a match drops its whole list (definition; `Snap.SnapPassFacts` states its effect) |
| `Snap.SnapPass` | guidelines.js:86-421 | one whole pass (definition; `Snap.SnapPassFacts` and `Snap.WrittenKeepsOneAxis` state its effect) |
| `Snap.SnapPlacesEdge` | guidelines.js:135-411 | each moving check puts the compared active edge or centre exactly on the candidate's, and keeps the captured centre's other coordinate |
| `Snap.SnapIsFixedPoint` | guidelines.js:135-411 | after a check has snapped, the same check matches again and writes the same centre: a snapped check is a fixed point of that check |
| `Snap.GuideMarksSnappedEdge` | guidelines.js:135-411 | the guide a moving check queues lies where the active object's edge is after the snap |
| `Snap.CentreGuidesOnly` | guidelines.js:115-133 | the two centre-to-centre checks never write the position; their guides run from 20 units before the smaller centre to 20 past the larger |
| `Snap.EdgeGuideSpansCentres` | guidelines.js:135-411 | with non-negative sizes and offset, an edge guide, ends ordered, covers both objects' centres |
| `Snap.LastMoveFacts` | guidelines.js:135-411 | within one candidate, no write happens iff no moving check matches; otherwise the write is the target of a matching check |
| `Snap.StepFacts` | guidelines.js:115-411 | a matching check appends exactly its own guide (`VGuide` or `HGuide`) to its own axis and leaves the other list alone; a check that does not match changes no list; it sets that axis's flag and writes its target when it moves |
| `Snap.StepsFacts` | guidelines.js:108-411 | the twelve checks against one candidate keep the queued guides, add guides to an axis iff some check on it matches, every added guide being the guide of a matching check on that axis, and leave the last matching move as the position |
| `Snap.StepsQueuesEvery` | guidelines.js:108-411 | conversely, against one candidate each axis's list grows by exactly the number of matching checks on that axis, and the guide of every matching check is among the guides added |
| `Snap.LastMoveAt` | guidelines.js:135-411 | the write that survives one candidate is the target of the moving check at index k when it matches and no later moving check does |
| `Snap.FinalMoveFacts` | guidelines.js:105-412 | across the candidates, nothing is written iff no candidate other than the active object has a moving match; otherwise the write is a matching check's target |
| `Snap.ScanFacts` | guidelines.js:105-412 | the candidate loop only appends guides, gains guides on an axis iff some candidate matches on it, and leaves the write of the lowest-index matching candidate |
| `Snap.ScanGuides` | guidelines.js:105-412 | every guide the candidate loop appends is the guide of a matching check on its axis against some candidate other than the active object |
| `Snap.ScanQueuesEvery` | guidelines.js:105-412 | conversely, for every candidate other than the active object, the guide of every matching check on an axis is among the guides the candidate loop appends to that axis |
| `Snap.ScanIgnoresActive` | guidelines.js:105-106 | the entry at the active object's own index never affects the pass |
| `Snap.SnapPassFacts` | guidelines.js:86-421 | after a pass an axis's list is empty iff no check on that axis matched; otherwise it keeps earlier guides and gains new ones: the guides of exactly the matching checks against the other objects (each new guide is one of them, and each of them is among the new guides); the position is written iff some moving check matched, and it is the last write |
| `Snap.WrittenKeepsOneAxis` | guidelines.js:155-410 | whatever position a pass writes agrees with the captured centre on at least one axis |
| `Guides.VerticalEnds` | guidelines.js:26-33 | a vertical guide is drawn half a unit to the right, its ends the guide's ends in ascending order |
| `Guides.HorizontalEnds` | guidelines.js:35-42 | a horizontal guide is drawn half a unit lower, its ends the guide's ends in ascending order |
| `Guides.ToScreen` | guidelines.js:53-60 | the `drawLine` map `p * zoom + translate` (definition; `Guides.ToScreenRoundTrip` inverts it) |
| `Guides.ToScreenRoundTrip` | guidelines.js:44-60 | for a non-zero zoom, the screen map of `drawLine` can be inverted exactly |
| `Guides.ToScreenKeepsOrder` | guidelines.js:44-60 | under a positive zoom, ordered ends stay ordered on screen |
| `Guides.DrawnVerticals` | guidelines.js:446-448 | the vertical segments `after:render` draws (definition; `Guides.DrawnVerticalsAt` characterises it) |
| `Guides.DrawnHorizontals` | guidelines.js:449-451 | the horizontal segments `after:render` draws (definition; `Guides.DrawnHorizontalsAt` characterises it) |
| `Guides.Rendered` | guidelines.js:446-451 | everything one `after:render` draws: the vertical segments, then the horizontal ones (definition) |
| `Guides.DrawnVerticalsAt` | guidelines.js:446-448 | `after:render` draws one segment per vertical guide, the k-th drawn being the k-th from the end of the list |
| `Guides.DrawnHorizontalsAt` | guidelines.js:449-451 | the same for the horizontal guides |
| `Aligning.DrawVerticals` | guidelines.js:446-448 | the first drawing loop of `after:render` produces exactly the vertical segments, last guide first |
| `Aligning.DrawHorizontals` | guidelines.js:449-451 | the second drawing loop produces exactly the horizontal segments, last guide first |
| `Aligning.AligningGuidelines.constructor` | guidelines.js:17-24 | the engine starts with empty lists, zoom 1, no viewport, and margin 4 |
| `Aligning.AligningGuidelines.MouseDown` | guidelines.js:423-426 | `mouse:down` captures the viewport transform and the zoom |
| `Aligning.AligningGuidelines.ApplyCheck` | guidelines.js:115-411 | one check block changes the lists, flags and position exactly as `Step` says |
| `Aligning.AligningGuidelines.CheckCentres` | guidelines.js:115-133 | the two centre-to-centre blocks act as the first two checks of `Steps` |
| `Aligning.AligningGuidelines.CheckFacingSides` | guidelines.js:135-193 | the right-to-left and left-to-right blocks act as checks three and four |
| `Aligning.AligningGuidelines.CheckFacingEnds` | guidelines.js:195-253 | the two top and bottom blocks act as checks five and six |
| `Aligning.AligningGuidelines.CheckColumns` | guidelines.js:255-332 | the centre-x, left-edge and right-edge snap blocks act as checks seven to nine |
| `Aligning.AligningGuidelines.CheckRows` | guidelines.js:334-411 | the centre-y, top-edge and bottom-edge snap blocks act as checks ten to twelve |
| `Aligning.AligningGuidelines.CheckCandidate` | guidelines.js:108-411 | the loop body changes the state exactly as `Steps` over the twelve checks in source order |
| `Aligning.AligningGuidelines.VisitCandidate` | guidelines.js:105-106 | one turn of the loop skips the active object and otherwise runs the loop body |
| `Aligning.AligningGuidelines.ScanCandidates` | guidelines.js:105-412 | the candidate loop ends in the state `Scan` gives |
| `Aligning.AligningGuidelines.RunPass` | guidelines.js:105-420 | the loop followed by the truncations leaves the lists and position that `SnapPass` gives |
| `Aligning.AligningGuidelines.Snapping` | guidelines.js:86-421 | without a viewport or a current transform nothing changes; otherwise the lists and position are those of `SnapPass` on the captured centre |
| `Aligning.AligningGuidelines.AfterRender` | guidelines.js:446-455 | `after:render` draws exactly `Rendered` of the queued guides (nothing before any `mouse:down`) and leaves both lists empty |
| `Aligning.AligningGuidelines.MouseUp` | guidelines.js:457-460 | `mouse:up` leaves both lists empty |
| `Centering.CenterKeys` | guidelines.js:482-497 | the keys of a centre map (definition; `Centering.CenterKeysShape` and `Centering.CenterKeysAreInRange` characterise it) |
| `Centering.ScaledLine` | guidelines.js:517-526 | `showCenterLine`: each coordinate scaled by entry 0 or 3 of the transform, without translation (definition) |
| `Centering.BuildCenterMap` | guidelines.js:482-497 | the map-building loop yields exactly `CenterKeys(c, margin)` |
| `Centering.CenterKeysShape` | guidelines.js:482-497 | the keys are the `2 * margin + 1` consecutive integers starting at `round(c - margin)` |
| `Centering.CenterKeysAreInRange` | guidelines.js:543-546 | a rounded coordinate is a key iff the coordinate is within the margin of the midpoint, by the same test as `isInRange` |
| `Centering.SnapDistance` | guidelines.js:547-556 | a coordinate that snaps lies less than `margin + 1` from the midpoint |
| `Centering.CenteringGuidelines.constructor` | guidelines.js:469-497 | the midpoints are half the canvas size and the maps hold exactly their key windows |
| `Centering.CenteringGuidelines.MouseDown` | guidelines.js:532-534 | `mouse:down` captures the viewport transform |
| `Centering.CenteringGuidelines.ObjectMoving` | guidelines.js:536-557 | each flag is whether the rounded centre coordinate is a key; x becomes the width midpoint iff its flag is set and is unchanged otherwise, and the same for y; without a current transform nothing changes |
| `Centering.CenteringGuidelines.AfterRender` | guidelines.js:565-572 | the vertical centre line is drawn iff its flag is set, then the horizontal one, each scaled but not translated; drawing before any `mouse:down` fails |
| `Centering.CenteringGuidelines.MouseUp` | guidelines.js:574-578 | `mouse:up` clears both flags |
| `Centering.VerticalFlagInRange` | guidelines.js:543-556 | on a built engine, the x flag is set iff x is within the margin of the width midpoint, and the snap then moves x by less than 5 |
| `Centering.HorizontalFlagInRange` | guidelines.js:543-556 | the same for y and the height midpoint |
| `Centering.EightHundredBySixHundred` | guidelines.js:543-556 | on an 800 by 600 canvas, x = 401 snaps, y = 500 does not, and x = 404.5 does not (it rounds to 405) |
| `Scenarios.SameColumn` | guidelines.js:115-411 | two objects with equal x: the centre, left-edge and right-edge x checks match and put x back on 100; no y check matches |
| `Scenarios.RightEdgeMeetsLeftEdge` | guidelines.js:135-163 | right edge at 150, candidate left edge at 152: the check matches and moves the centre from x = 130 to 132 |
| `Scenarios.MarginBoundary` | guidelines.js:68-81 | edges 3 apart are in range; edges 5 apart are not |
| `Scenarios.FarBelow` | guidelines.js:115-411 | a candidate 300 below and 6 to the right of a 40 by 30 object matches no check |
| `Scenarios.NearColumn` | guidelines.js:255-332 | a candidate far below whose x is within the margin: the last moving match is the right-edge check, which writes the candidate's x and the captured y |
| `Scenarios.PassNotIdempotent` | guidelines.js:86-421 | a pass that snapped the object to x = 104, run again from there, snaps it to x = 106 |

## Left out

- Drawing: the `ctx` calls, colours, line widths, the dash pattern,
  `clearContext` in `before:render`, and `renderAll` in `mouse:up`. They are
  rendering side effects. The model returns the segments that would be drawn.
- fabric.js object calls (`getCenterPoint`, `getBoundingRect`,
  `setPositionByOrigin`, `new fabric.Point`). Sizes are inputs; the active
  object's centre is the `center` field, which the host sets with `Drag`
  and a position write assigns.
- The division of bounding-box sizes by `viewportTransform[0]` and `[3]`
  (lines 93-95, 112-113). Sizes are taken in logical units.
- The `canvas.on` wiring. `object:moving`, `object:scaling` and
  `object:rotating` all run the same `Snapping`.
- The viewport transform is modelled as a value captured at `mouse:down`.
  The source keeps a reference to `canvas.viewportTransform` (lines 424 and
  533) and reads its entries when it draws or snaps. A change made to that
  array in place after `mouse:down`, such as a pan, is not modelled.
- IEEE floating point. Coordinates are exact reals, and `Math.round` is exact
  on them.
- Line 12 names `ALIGN_LINE_OFFSET` without assigning it, which fails when the
  file loads. The offset is a parameter instead.
- `Aligning.AligningGuidelines.Snapping`: before the first `mouse:down` the
  source throws at line 94. The model treats that as a pass that changes
  nothing.
- `Centering.CenteringGuidelines.AfterRender`: drawing a centre line before
  any `mouse:down` reads an undefined transform and throws. The model
  returns `None` for that case.
- The centering flags start `undefined` and are reset to `null`. Both are
  read as false, so the model keeps them as booleans.
- The active object is given by its index in the object list. Identity
  comparison (`===`) is not modelled beyond that index.

## Notes on behaviour

- The pass writes the active object's position once per matching moving
  check. Each write sets one coordinate to the snap target and the other to
  the centre captured at the start (lines 89-91). So the last write wins,
  and the survivor keeps the captured centre on one axis
  (`Snap.WrittenKeepsOneAxis`). A candidate that matches on both axes snaps
  only on the axis of its last matching check.
- Candidates are visited from the highest index down. The surviving write
  therefore comes from the lowest-index candidate with a moving match, from
  its last matching check in source order (`Snap.FinalMove`). This is a
  last-write-wins rule, not a first-match-wins one; the model follows the
  code.
- The code has ten moving checks after the two guide-only ones: four on
  facing edges (lines 135-253) and six on centres and same-side edges (lines
  255-411). There are no corner checks.
- For two 40 by 30 objects with centres (100, 100) and (100, 300), the code
  queues a vertical guide for each matching x check: centre, snap-centre,
  left edges and right edges. That is four guides, not one
  (`Scenarios.SameColumn` gives the matching checks, `Snap.StepsQueuesEvery`
  one guide per matching check). The centre guide runs from y = 80 to
  y = 320.
- A snapped check is a fixed point of that check (`Snap.SnapIsFixedPoint`),
  but a whole pass is not idempotent. Take the active object 40 by 30 at
  (100, 100) and candidates at (106, 400) and (104, 700). The first pass
  writes (104, 100); the second, from (104, 100), now finds the candidate at
  (106, 400) within the margin and writes (106, 100)
  (`Scenarios.PassNotIdempotent`).
- When the active object's right edge is at 150 and a candidate's left edge
  is at 152, the object moves 2 units right, to x = 132.
