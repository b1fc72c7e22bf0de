/**
  DOMVector: an immutable drag gesture, an anchor (x, y) plus a signed
  displacement (magnitudeX, magnitudeY) from the anchor to the pointer.
  The same value type serves both copies of the class in the repository
  (the full one in the library and the toDOMRect-only one in the component).
*/
module DomVector {
  import opened Dom

  /** The gesture; the datatype constructor stores the four numbers unchanged. */
  datatype Vector = Vector(x: int, y: int, magnitudeX: int, magnitudeY: int)

  /** The vector with no anchor offset and no displacement. */
  const Zero: Vector := Vector(0, 0, 0, 0)

  /**
    The gesture normalised into an axis-aligned rectangle: on each axis one
    edge is the anchor and the other the terminal point, and the size is never
    negative.
  */
  function ToDOMRect(v: Vector): (r: Rect)
    ensures r.width >= 0 && r.height >= 0
    ensures (r.x == v.x && r.x + r.width == v.x + v.magnitudeX)
         || (r.x == v.x + v.magnitudeX && r.x + r.width == v.x)
    ensures (r.y == v.y && r.y + r.height == v.y + v.magnitudeY)
         || (r.y == v.y + v.magnitudeY && r.y + r.height == v.y)
  {
    Rect(Min(v.x, v.x + v.magnitudeX), Min(v.y, v.y + v.magnitudeY),
         Abs(v.magnitudeX), Abs(v.magnitudeY))
  }

  /**
    The square of getDiagonalLength. The length itself is a square root; since
    the root is monotone and non-negative, `length < t` is `squared < t * t`
    for every t >= 0, which is how the controller uses it.
  */
  function DiagonalLengthSquared(v: Vector): (d: int)
    ensures d >= 0
    ensures d >= v.magnitudeX * v.magnitudeX && d >= v.magnitudeY * v.magnitudeY
  {
    v.magnitudeX * v.magnitudeX + v.magnitudeY * v.magnitudeY
  }

  /** Component-wise sum of two vectors, anchors and displacements alike. */
  function Add(v: Vector, w: Vector): (r: Vector)
    ensures ToTerminalPoint(r) == Point(ToTerminalPoint(v).x + ToTerminalPoint(w).x,
                                        ToTerminalPoint(v).y + ToTerminalPoint(w).y)
  {
    Vector(v.x + w.x, v.y + w.y, v.magnitudeX + w.magnitudeX, v.magnitudeY + w.magnitudeY)
  }

  /**
    Caps the displacement so that the terminal point does not pass the far
    edges `bounds.width` / `bounds.height`; the anchor is kept. Only the upper
    edges are enforced: there is no lower bound, so the terminal point may
    stay negative.
  */
  function Clamp(v: Vector, bounds: Rect): (r: Vector)
    ensures r.x == v.x && r.y == v.y
    ensures r.magnitudeX <= v.magnitudeX && r.magnitudeY <= v.magnitudeY
    ensures r.x + r.magnitudeX <= bounds.width && r.y + r.magnitudeY <= bounds.height
    ensures ToTerminalPoint(r) == Point(Min(bounds.width, ToTerminalPoint(v).x),
                                        Min(bounds.height, ToTerminalPoint(v).y))
  {
    Vector(v.x, v.y, Min(bounds.width - v.x, v.magnitudeX), Min(bounds.height - v.y, v.magnitudeY))
  }

  /** Where the gesture currently ends: the anchor moved by the displacement. */
  function ToTerminalPoint(v: Vector): (p: Point)
    ensures p.x - v.x == v.magnitudeX && p.y - v.y == v.magnitudeY
  {
    Point(v.x + v.magnitudeX, v.y + v.magnitudeY)
  }

  // ---------------------------------------------------------------------------
  // toDOMRect

  /** The DOM edges of the rectangle are the extremes of anchor and terminal point. */
  lemma ToDOMRectEdges(v: Vector)
    ensures ToDOMRect(v).Left() == Min(v.x, ToTerminalPoint(v).x)
    ensures ToDOMRect(v).Right() == Max(v.x, ToTerminalPoint(v).x)
    ensures ToDOMRect(v).Top() == Min(v.y, ToTerminalPoint(v).y)
    ensures ToDOMRect(v).Bottom() == Max(v.y, ToTerminalPoint(v).y)
    ensures ToDOMRect(v).width == Abs(v.magnitudeX) && ToDOMRect(v).height == Abs(v.magnitudeY)
  {
  }

  /** The rectangle holds both ends of the gesture. */
  lemma ToDOMRectContainsEnds(v: Vector)
    ensures ToDOMRect(v).Contains(Point(v.x, v.y))
    ensures ToDOMRect(v).Contains(ToTerminalPoint(v))
  {
  }

  /**
    The rectangle depends only on the two ends, not on which end is the
    anchor: the reversed gesture gives the same rectangle.
  */
  lemma ToDOMRectReversed(v: Vector)
    ensures ToDOMRect(Vector(v.x + v.magnitudeX, v.y + v.magnitudeY, -v.magnitudeX, -v.magnitudeY))
         == ToDOMRect(v)
  {
  }

  /** A point lies in the rectangle exactly when it lies between the ends on each axis. */
  lemma ToDOMRectContainsIff(v: Vector, p: Point)
    ensures ToDOMRect(v).Contains(p) <==>
              (Min(v.x, v.x + v.magnitudeX) <= p.x <= Max(v.x, v.x + v.magnitudeX) &&
               Min(v.y, v.y + v.magnitudeY) <= p.y <= Max(v.y, v.y + v.magnitudeY))
  {
  }

  // ---------------------------------------------------------------------------
  // getDiagonalLength

  /** The length is zero exactly when the pointer has not moved. */
  lemma DiagonalZeroIff(v: Vector)
    ensures DiagonalLengthSquared(v) == 0 <==> v.magnitudeX == 0 && v.magnitudeY == 0
  {
  }

  /** A square no smaller than t * t means an absolute value no smaller than t. */
  lemma SquareBelow(a: int, t: int)
    requires t >= 0 && a * a < t * t
    ensures Abs(a) < t
  {
  }

  /**
    A gesture below a length threshold t moved less than t along each axis;
    so a pointer that stays under the activation distance never leaves a
    2t-wide square around the anchor.
  */
  lemma BelowThresholdIsSmall(v: Vector, t: int)
    requires t >= 0 && DiagonalLengthSquared(v) < t * t
    ensures Abs(v.magnitudeX) < t && Abs(v.magnitudeY) < t
  {
    SquareBelow(v.magnitudeX, t);
    SquareBelow(v.magnitudeY, t);
  }

  // ---------------------------------------------------------------------------
  // add

  lemma AddCommutative(v: Vector, w: Vector)
    ensures Add(v, w) == Add(w, v)
  {
  }

  lemma AddAssociative(u: Vector, v: Vector, w: Vector)
    ensures Add(Add(u, v), w) == Add(u, Add(v, w))
  {
  }

  lemma AddZero(v: Vector)
    ensures Add(v, Zero) == v && Add(Zero, v) == v
  {
  }

  // ---------------------------------------------------------------------------
  // clamp

  /** Clamping a second time with the same bounds changes nothing. */
  lemma ClampIdempotent(v: Vector, bounds: Rect)
    ensures Clamp(Clamp(v, bounds), bounds) == Clamp(v, bounds)
  {
  }

  /** Clamping leaves a vector alone exactly when its terminal point is already within bounds. */
  lemma ClampFixedIff(v: Vector, bounds: Rect)
    ensures Clamp(v, bounds) == v <==>
              ToTerminalPoint(v).x <= bounds.width && ToTerminalPoint(v).y <= bounds.height
  {
  }

  /** Clamping only reads the bounds' width and height, never its position. */
  lemma ClampIgnoresBoundsOrigin(v: Vector, a: Rect, b: Rect)
    requires a.width == b.width && a.height == b.height
    ensures Clamp(v, a) == Clamp(v, b)
  {
  }

  // ---------------------------------------------------------------------------
  // toTerminalPoint

  /** Anchor and terminal point determine the vector: the pointer-move construction round-trips. */
  lemma TerminalRoundTrip(x: int, y: int, p: Point)
    ensures ToTerminalPoint(Vector(x, y, p.x - x, p.y - y)) == p
  {
  }

  lemma VectorFromEnds(v: Vector)
    ensures Vector(v.x, v.y, ToTerminalPoint(v).x - v.x, ToTerminalPoint(v).y - v.y) == v
  {
  }
}
