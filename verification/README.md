# Drag-to-select, modelled in Dafny

This project models the engine behind a rubber-band ("drag to select") picker in a scrollable container. It covers:

- **`DomVector`** — the immutable gesture vector `DOMVector`: an anchor plus a signed displacement. It can be normalised into a `DOMRect`, measured, added to another vector, clamped to content bounds, and asked for its terminal point. The library class and the component's smaller copy share this one datatype.
- **`RectOverlap`** — `intersect`, the separating-axis overlap test between two rectangles.
- **`SelectionRecords`** — `shallowEqual`, which compares two selection records (item id to boolean).
- **`AutoScroll`** — the per-frame edge auto-scroll step: a 20-pixel band at each edge and at most 15 pixels per frame.
- **`DragToSelect`** — the `useDragToSelect` hook as a class `DragController`.
  - Its four pieces of state are fields: `dragVector`, `scrollVector`, `isDragging` and `selectedItems`.
  - Each event handler is a method that updates them: pointer down, move and up, key down, scroll.
  - Every handler keeps the invariant `DragController.Valid`: a scroll vector never exists without a drag vector, and a selection record only ever maps ids to `true`.
  - The derived selection rectangle and the auto-scroll tick are functions of that state.
  - The `forEach` that rebuilds the selection is a loop proved against a recursive specification, `SelectedIds`.
- **`Scenarios`** — concrete runs of the controller over a two-item container. They show the main behaviours end to end, including the consequences of Escape leaving the dragging flag set (see below).

The browser is a parameter of every operation:

- The container's bounding rectangle and scroll state arrive as a `Container` value. It is `None` when the container ref is not mounted.
- The `[data-item]` elements arrive as a sequence of `Item`s. Each records whether the element is an HTMLElement, its `data-item` attribute and its bounding rectangle.
- Focus, pointer capture, `preventDefault` and `scrollBy` are returned as results.

Coordinates are whole CSS pixels (`int`).

Behaviours of the code worth knowing, each modelled as written:

- **Escape does not reset `isDragging`** (src/hooks/use-drag-to-select.ts:150-158). An Escape press clears the selection, the drag vector and the scroll vector, but leaves the dragging flag set.
  - A release after Escape still sees the flag set, so it ends the drag and resets the flag (src/hooks/use-drag-to-select.ts:139-148). `Scenarios.EscapeThenReleaseResetsFlag` proves that a later press and one-pixel move then select nothing.
  - If a new press arrives with no release in between (a second touch pointer, or a lost `pointerup`), a one-pixel move skips the 10-pixel activation distance and recomputes the selection at once. `Scenarios.EscapeKeepsDraggingFlag` proves this sequence of events.
- **Every key press clears the scroll vector**, not only Escape (src/hooks/use-drag-to-select.ts:157). `DragController.KeyDown` states this.
  - After any other key during a drag, pointer moves and scrolls do nothing, because both guard on the scroll vector (src/hooks/use-drag-to-select.ts:112, :162).
  - No band is drawn, while `isDragging` stays set.
  - The auto-scroll tick keeps scrolling towards the edge at the last pointer position until the release. `Scenarios.OtherKeyFreezesDrag` proves this.
- **Scrolling acts while a gesture is still pending.** The scroll handler checks only the two vectors, not `isDragging` (src/hooks/use-drag-to-select.ts:162).
  - A press followed by a scroll, with no move, recomputes and commits the selection while no drag is active and no band is drawn.
  - The release then empties the selection again (src/hooks/use-drag-to-select.ts:139-142).
  - The below-threshold clause of `PointerMove` covers moves only. `Scenarios.ScrollWhilePending` proves this sequence.
- **Clamping caps only the far edges.** `Clamp` has no lower bound: the terminal point may stay negative, so a band dragged above or left of the content origin is not cut off there.

## Model

| member | source | states |
|---|---|---|
| DomVector.ToDOMRect | src/lib/dom-vector.ts:14-21 | the rectangle has non-negative size and, on each axis, runs from the anchor to the terminal point in one order or the other |
| DomVector.ToDOMRectEdges | src/components/drag-to-select/dom-vector.ts:14-21 | left/right/top/bottom of the rectangle are the min/max of anchor and terminal point; width and height are the absolute displacements |
| DomVector.ToDOMRectContainsEnds | src/lib/dom-vector.ts:14-21 | both the anchor and the terminal point lie in the rectangle |
| DomVector.ToDOMRectReversed | src/components/drag-to-select/dom-vector.ts:14-21 | the rectangle depends only on the two ends: the reversed gesture gives the same rectangle |
| DomVector.ToDOMRectContainsIff | src/lib/dom-vector.ts:14-21 | a point is in the rectangle iff it lies between the two ends on each axis |
| DomVector.DiagonalLengthSquared | src/lib/dom-vector.ts:23-25 | the squared diagonal is non-negative and at least each squared displacement |
| DomVector.DiagonalZeroIff | src/lib/dom-vector.ts:23-25 | the diagonal is zero iff both displacements are zero |
| DomVector.BelowThresholdIsSmall | src/lib/dom-vector.ts:23-25 | a gesture shorter than t moved less than t along each axis |
| DomVector.Add | src/lib/dom-vector.ts:27-34 | the terminal point of a sum is the sum of the terminal points |
| DomVector.AddCommutative | src/lib/dom-vector.ts:27-34 | adding vectors does not depend on order |
| DomVector.AddAssociative | src/lib/dom-vector.ts:27-34 | adding vectors is associative |
| DomVector.AddZero | src/lib/dom-vector.ts:27-34 | the zero vector is neutral on both sides |
| DomVector.Clamp | src/lib/dom-vector.ts:36-43 | the anchor is kept, the displacement never grows, the terminal point stays within width/height, and it is the componentwise min of the old terminal point and the bounds' size |
| DomVector.ClampIdempotent | src/lib/dom-vector.ts:36-43 | clamping twice with the same bounds equals clamping once |
| DomVector.ClampFixedIff | src/lib/dom-vector.ts:36-43 | clamping leaves a vector unchanged iff its terminal point is already within width and height |
| DomVector.ClampIgnoresBoundsOrigin | src/lib/dom-vector.ts:36-43 | clamping reads only the bounds' width and height, not its position |
| DomVector.ToTerminalPoint | src/lib/dom-vector.ts:45-47 | the terminal point lies at the displacement from the anchor |
| DomVector.TerminalRoundTrip | src/hooks/use-drag-to-select.ts:118-123 | a vector built from an anchor and a pointer position ends exactly at that pointer |
| DomVector.VectorFromEnds | src/lib/dom-vector.ts:45-47 | a vector is recovered from its anchor and terminal point |
| RectOverlap.Intersect | src/utils/intersect.ts:1-11 | the test is true iff the two closed intervals overlap on both axes |
| RectOverlap.IntersectIffCommonPoint | src/utils/intersect.ts:1-11 | two rectangles pass the test iff some point lies in both |
| RectOverlap.IntersectSymmetric | src/utils/intersect.ts:1-11 | the test does not depend on argument order |
| RectOverlap.IntersectReflexive | src/utils/intersect.ts:1-11 | every rectangle overlaps itself, whatever the signs of its size |
| RectOverlap.TouchingEdgesIntersect | src/utils/intersect.ts:2-4 | rectangles sharing only a vertical edge overlap, because the separation guards use strict `<` |
| RectOverlap.TouchingCornersIntersect | src/utils/intersect.ts:2-8 | rectangles sharing only a corner overlap |
| RectOverlap.HorizontalGapSeparates | src/utils/intersect.ts:2-4 | a horizontal gap rules out overlap whatever the vertical positions |
| RectOverlap.VerticalGapSeparates | src/utils/intersect.ts:6-8 | a vertical gap rules out overlap whatever the horizontal positions |
| RectOverlap.IntersectMonotone | src/utils/intersect.ts:1-11 | a rectangle containing another overlaps everything the smaller one overlaps |
| SelectionRecords.ShallowEqual | src/utils/shallow-equal.ts:1-9 | the comparison is true iff the two records are equal maps |
| SelectionRecords.EmptyRecordsEqual | src/utils/shallow-equal.ts:1-9 | two empty records compare equal |
| SelectionRecords.DifferentSizesDiffer | src/utils/shallow-equal.ts:6 | records with different key counts compare unequal |
| SelectionRecords.EqualAgreesOnKeys | src/utils/shallow-equal.ts:7 | equal records hold the same boolean for every key of the first |
| SelectionRecords.ShallowEqualReflexive | src/utils/shallow-equal.ts:1-9 | a record equals itself |
| SelectionRecords.ShallowEqualSymmetric | src/utils/shallow-equal.ts:1-9 | the comparison does not depend on argument order |
| SelectionRecords.ShallowEqualTransitive | src/utils/shallow-equal.ts:1-9 | the comparison is transitive |
| AutoScroll.ClampNumber | src/hooks/use-drag-to-select.ts:200-208 | the result lies in [lo, hi] and equals the value when it is already there |
| AutoScroll.AxisDelta | src/hooks/use-drag-to-select.ts:194-209 | a delta exists iff the pointer is in either edge band; it is non-zero and at most 15 in size; it is positive iff the pointer is in the far band (which wins) and negative iff only in the near band |
| AutoScroll.AutoScrollStep | src/hooks/use-drag-to-select.ts:194-219 | no command iff the pointer is clear of all four bands; otherwise one command carrying both axes' deltas |
| AutoScroll.FarStepGrowsTowardEdge | src/hooks/use-drag-to-select.ts:199-200 | in the far band the step is the depth in the band, capped at 15, and never shrinks as the pointer nears the edge |
| AutoScroll.NearStepGrowsTowardEdge | src/hooks/use-drag-to-select.ts:201-202 | in the near band the step is minus the depth in the band, capped at 15, and grows in size towards the edge |
| DragToSelect.ToContent | src/hooks/use-drag-to-select.ts:50-56 | an item's rectangle keeps its size and is shifted by the scroll offsets minus the container's origin |
| DragToSelect.AllSelected | src/hooks/use-drag-to-select.ts:67-69 | the record has exactly the given ids as keys, all mapped to true |
| DragToSelect.SelectedIffHit | src/hooks/use-drag-to-select.ts:45-70 | an id is in `SelectedIds` (the recursive specification of the `forEach`) iff some HTMLElement (`Hit`, line 46) carrying that non-empty id (`HasId`, line 67) has a content rectangle meeting the band; `SelectionArea` is the band of line 60 and `SelectionFor` the record the handlers commit |
| DragToSelect.SelectionMonotone | src/hooks/use-drag-to-select.ts:58-65 | a band containing another selects at least the same ids |
| DragToSelect.IgnoredItemsDoNotMatter | src/hooks/use-drag-to-select.ts:46-48 | an element that is not an HTMLElement, or has no usable id, never changes the selection |
| DragToSelect.SelectionIgnoresOrder | src/hooks/use-drag-to-select.ts:45-70 | swapping two neighbouring elements yields the same selected ids |
| DragToSelect.CollectSelected | src/hooks/use-drag-to-select.ts:42-70 | the loop over the elements builds exactly the record of true values for the selected ids |
| DragToSelect.DragController.constructor | src/hooks/use-drag-to-select.ts:14-19 | the initial state has no vectors, is not dragging and has an empty selection |
| DragToSelect.DragController.SelectionRect | src/hooks/use-drag-to-select.ts:20-34 | a rectangle exists iff both vectors are set, a drag is active and the container is mounted; it spans from the combined anchor to the combined terminal point capped at the content size |
| DragToSelect.DragController.UpdateSelectedItems | src/hooks/use-drag-to-select.ts:36-77 | with no container nothing changes; otherwise the selection becomes the one for the given vectors, and a new record is committed iff it differs from the old one |
| DragToSelect.DragController.PointerDown | src/hooks/use-drag-to-select.ts:79-108 | only the primary button acts and captures the pointer; it anchors the drag vector at the container-relative pointer and the scroll vector at the scroll offsets, both with zero displacement; the flag and selection are untouched |
| DragToSelect.DragController.PointerMove | src/hooks/use-drag-to-select.ts:110-137 | without both vectors nothing changes; a pending gesture shorter than 10 pixels is ignored; otherwise dragging starts, the container gets focus, the drag vector ends at the pointer and the selection is recomputed |
| DragToSelect.DragController.PointerUp | src/hooks/use-drag-to-select.ts:139-148 | both vectors are cleared; without a drag the selection is emptied, after a drag it is kept and the drag ends |
| DragToSelect.DragController.KeyDown | src/hooks/use-drag-to-select.ts:150-158 | every key clears the scroll vector; Escape alone prevents the default action, empties the selection and clears the drag vector; the dragging flag is never touched |
| DragToSelect.DragController.Scroll | src/hooks/use-drag-to-select.ts:160-179 | without both vectors nothing changes; otherwise the scroll vector keeps its anchor and ends at the new scroll offsets, and the selection is recomputed against the kept drag vector |
| DragToSelect.DragController.AutoScrollTick | src/hooks/use-drag-to-select.ts:181-222 | no command unless dragging with a mounted container and a drag vector; then the command is the edge step for the drag vector's terminal point in the container's rectangle |
| Scenarios.DragOverFirstItem | src/hooks/use-drag-to-select.ts:110-137 | pressing at (10,10) and moving to (40,40) starts a drag, draws the band (10,10,30,30) and selects only A |
| Scenarios.DragOverBothItems | src/hooks/use-drag-to-select.ts:45-70 | a band reaching (120,120) selects both A and B |
| Scenarios.ClickClearsSelection | src/hooks/use-drag-to-select.ts:139-148 | a press and a move below the activation distance, then a release, empty the selection without starting a drag |
| Scenarios.ScrollDuringDrag | src/hooks/use-drag-to-select.ts:160-179 | scrolling 30 pixels during a drag (the items' viewport rectangles moving up by 30) stretches the band to (10,10,30,60) in content coordinates; A stays the only hit |
| Scenarios.BandScrolled | src/hooks/use-drag-to-select.ts:20-34 | the band for a given drag and scroll state, clamped to 1000 by 1000 content |
| Scenarios.EscapeKeepsDraggingFlag | src/hooks/use-drag-to-select.ts:150-158 | after Escape the selection is empty but the dragging flag is still set, so a new press with no release in between and a one-pixel move select B at once |
| Scenarios.EscapeThenReleaseResetsFlag | src/hooks/use-drag-to-select.ts:139-158 | a release after Escape resets the dragging flag, so a later press and one-pixel move start no drag and select nothing |
| Scenarios.ScrollWhilePending | src/hooks/use-drag-to-select.ts:160-179 | a press then a 30-pixel scroll with no move commits the selection {A} while no drag is active and no band is drawn; the release empties it |
| Scenarios.OtherKeyFreezesDrag | src/hooks/use-drag-to-select.ts:150-158 | after a non-Escape key during a drag, the drag stays active but a further move leaves the selection unchanged, no band is drawn, and the auto-scroll tick still issues a command |

## Left out

- Animation-frame scheduling (`requestAnimationFrame` / `cancelAnimationFrame`) and the effect's start and stop are not modelled. `AutoScrollTick` models a single tick as a function of the state; the self-rescheduling and its cancellation are left out.
- React's asynchronous state commits and stale closures are not modelled. Each handler updates the fields at once and reads the latest values; in the hook a handler sees the values of its last render.
- Floating-point coordinates and `Math.sqrt` are replaced by whole-pixel integers and the squared length. `getDiagonalLength() < 10` becomes `DiagonalLengthSquared < 100`, which agrees for every non-negative threshold; sub-pixel positions are not covered.
- AutoScroll.ClampNumber: the `clamp` helper from the utils package is not part of this model; it is taken to bound a value into `[min, max]`.
- JavaScript object-key quirks are not modelled: `data-item` values such as `__proto__` do not become own keys of a plain object. Records are modelled as maps from strings to booleans.
- The DOM calls are inputs rather than calls: `getBoundingClientRect`, `querySelectorAll`, `scrollLeft`/`scrollTop`/`scrollWidth`/`scrollHeight` and the event's `currentTarget`. `setPointerCapture`, `focus`, `preventDefault` and `scrollBy` are returned as results (`captured`, `focused`, `preventDefault`, the `ScrollBy` command); their effects on the browser are not modelled.
- The rendering components (`drag-to-select.tsx`, `App.tsx`) are not part of this model. The DOMVector constructor is the datatype constructor, which stores the four numbers unchanged.
