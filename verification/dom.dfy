/**
  The browser geometry values the engine consumes: DOMRect and DOMPoint,
  together with the Math.min / Math.max / Math.abs helpers it relies on.
  Coordinates are integers (whole CSS pixels); fractional coordinates and
  floating-point rounding are not modelled.
*/
module Dom {

  function Min(a: int, b: int): int { if a <= b then a else b }

  function Max(a: int, b: int): int { if a <= b then b else a }

  function Abs(a: int): int { if a < 0 then -a else a }

  /** A DOMPoint: only the two coordinates the engine reads. */
  datatype Point = Point(x: int, y: int)

  /**
    A DOMRect as built by `new DOMRect(x, y, width, height)`. Width and height
    may be negative; the edge accessors then normalise, as the DOM defines them.
  */
  datatype Rect = Rect(x: int, y: int, width: int, height: int) {

    function Left(): int { Min(x, x + width) }

    function Right(): int { Max(x, x + width) }

    function Top(): int { Min(y, y + height) }

    function Bottom(): int { Max(y, y + height) }

    /** The closed rectangle contains `p` (edges included). */
    predicate Contains(p: Point) {
      Left() <= p.x <= Right() && Top() <= p.y <= Bottom()
    }
  }
}
