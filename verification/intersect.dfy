/**
  The rectangle overlap test used for hit-testing items against the
  rubber band: a separating-axis check whose separation guards use strict
  comparisons, so rectangles that only touch along an edge or at a corner
  still overlap.
*/
module RectOverlap {
  import opened Dom

  /**
    False when one rectangle lies strictly to one side of the other,
    horizontally or vertically; true otherwise. Equivalently, the two closed
    intervals overlap on both axes.
  */
  function Intersect(a: Rect, b: Rect): (r: bool)
    ensures r <==> (Max(a.Left(), b.Left()) <= Min(a.Right(), b.Right()) &&
                    Max(a.Top(), b.Top()) <= Min(a.Bottom(), b.Bottom()))
  {
    if a.Right() < b.Left() || b.Right() < a.Left() then
      false
    else if a.Bottom() < b.Top() || b.Bottom() < a.Top() then
      false
    else
      true
  }

  /** The overlap test does not depend on argument order. */
  lemma IntersectSymmetric(a: Rect, b: Rect)
    ensures Intersect(a, b) == Intersect(b, a)
  {
  }

  /** A rectangle overlaps itself, whatever the signs of its width and height. */
  lemma IntersectReflexive(a: Rect)
    ensures Intersect(a, a)
  {
  }

  /** Rectangles that share only a vertical edge overlap. */
  lemma TouchingEdgesIntersect(a: Rect, b: Rect)
    requires a.Right() == b.Left()
    requires Max(a.Top(), b.Top()) <= Min(a.Bottom(), b.Bottom())
    ensures Intersect(a, b)
  {
  }

  /** Rectangles that share only a corner overlap. */
  lemma TouchingCornersIntersect(a: Rect, b: Rect)
    requires a.Right() == b.Left() && a.Bottom() == b.Top()
    ensures Intersect(a, b)
  {
  }

  /** A horizontal gap separates the rectangles, whatever their vertical positions. */
  lemma HorizontalGapSeparates(a: Rect, b: Rect)
    requires a.Right() < b.Left() || b.Right() < a.Left()
    ensures !Intersect(a, b)
  {
  }

  /** A vertical gap separates the rectangles, whatever their horizontal positions. */
  lemma VerticalGapSeparates(a: Rect, b: Rect)
    requires a.Bottom() < b.Top() || b.Bottom() < a.Top()
    ensures !Intersect(a, b)
  {
  }

  /**
    The separating-axis test agrees with the geometric definition: two
    rectangles overlap exactly when some point lies in both.
  */
  lemma IntersectIffCommonPoint(a: Rect, b: Rect)
    ensures Intersect(a, b) <==> exists p: Point :: a.Contains(p) && b.Contains(p)
  {
    if Intersect(a, b) {
      var p := Point(Max(a.Left(), b.Left()), Max(a.Top(), b.Top()));
      assert a.Contains(p) && b.Contains(p);
    }
  }

  /** `a` lies within `b`. */
  predicate Within(a: Rect, b: Rect) {
    b.Left() <= a.Left() && a.Right() <= b.Right() && b.Top() <= a.Top() && a.Bottom() <= b.Bottom()
  }

  /** Growing a rectangle never loses an overlap. */
  lemma IntersectMonotone(a: Rect, b: Rect, item: Rect)
    requires Within(a, b)
    requires Intersect(a, item)
    ensures Intersect(b, item)
  {
  }
}
