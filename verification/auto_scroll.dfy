/**
  The per-frame auto-scroll step: while a drag is active, a pointer within
  a band near an edge of the container's viewport scrolls the container
  towards that edge by a step that grows the deeper the pointer is in the
  band, capped at a maximum. The frame scheduling around it is not modelled.
*/
module AutoScroll {
  import opened Optional
  import opened Dom

  /** Width of the edge band, in pixels. */
  const EdgeBand: int := 20

  /** Largest scroll step per frame, in pixels. */
  const MaxScrollStep: int := 15

  /**
    The `clamp(value, min, max)` helper the hook imports; its definition is
    not part of this model and is taken to bound `v` into [lo, hi].
  */
  function ClampNumber(v: int, lo: int, hi: int): (r: int)
    requires lo <= hi
    ensures lo <= r <= hi
    ensures lo <= v <= hi ==> r == v
  {
    if v < lo then lo else if v > hi then hi else v
  }

  /** A `scrollBy({ left, top })` command; an absent delta is `undefined`. */
  datatype ScrollBy = ScrollBy(left: Option<int>, top: Option<int>)

  /**
    The delta along one axis for a pointer at `pointer` in a viewport of
    size `extent`: towards the far edge (positive) when the pointer is within
    the band of it, which takes precedence; otherwise towards the near edge
    (negative) when within the band of that one; otherwise none.
  */
  function AxisDelta(pointer: int, extent: int): (d: Option<int>)
    ensures d.Some? <==> (extent - pointer < EdgeBand || pointer < EdgeBand)
    ensures d.Some? ==> -MaxScrollStep <= d.value <= MaxScrollStep && d.value != 0
    ensures (d.Some? && d.value > 0) <==> extent - pointer < EdgeBand
    ensures (d.Some? && d.value < 0) <==> (extent - pointer >= EdgeBand && pointer < EdgeBand)
  {
    if extent - pointer < EdgeBand then
      Some(ClampNumber(EdgeBand - extent + pointer, 0, MaxScrollStep))
    else if pointer < EdgeBand then
      Some(-1 * ClampNumber(EdgeBand - pointer, 0, MaxScrollStep))
    else
      None
  }

  /**
    One tick of the loop for a pointer at `pointer` (container coordinates)
    and the container's viewport rectangle: no command when the pointer is
    clear of all four bands, otherwise one command carrying both axes' deltas.
  */
  function AutoScrollStep(pointer: Point, viewport: Rect): (cmd: Option<ScrollBy>)
    ensures cmd.None? <==> (EdgeBand <= pointer.x && EdgeBand <= viewport.width - pointer.x &&
                            EdgeBand <= pointer.y && EdgeBand <= viewport.height - pointer.y)
    ensures cmd.Some? ==> (cmd.value.left == AxisDelta(pointer.x, viewport.width) &&
                           cmd.value.top == AxisDelta(pointer.y, viewport.height))
  {
    var left := AxisDelta(pointer.x, viewport.width);
    var top := AxisDelta(pointer.y, viewport.height);
    if top.None? && left.None? then None else Some(ScrollBy(left, top))
  }

  /**
    Inside the far band, the step is the depth of the pointer in the band,
    capped; a pointer closer to the edge never scrolls more slowly.
  */
  lemma FarStepGrowsTowardEdge(p: int, q: int, extent: int)
    requires extent - p < EdgeBand && p <= q
    ensures AxisDelta(p, extent).value <= AxisDelta(q, extent).value
    ensures AxisDelta(p, extent).value == Min(MaxScrollStep, EdgeBand - (extent - p))
  {
  }

  /**
    Inside the near band only, the step is the depth of the pointer in the
    band, capped, towards the near edge; closer to that edge is never slower.
  */
  lemma NearStepGrowsTowardEdge(p: int, q: int, extent: int)
    requires extent - p >= EdgeBand && extent - q >= EdgeBand && q < EdgeBand && p <= q
    ensures AxisDelta(p, extent).value <= AxisDelta(q, extent).value
    ensures AxisDelta(p, extent).value == -Min(MaxScrollStep, EdgeBand - p)
  {
  }
}
