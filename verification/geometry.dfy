/** Points and rectangles of the host's 2-D coordinate space.

    Coordinates are `real`: the effect only takes midpoints and sums of them,
    so no floating-point reasoning is involved. The edge accessors follow the
    host's convention for rectangles: a negative width or height is first
    standardized, so `MinX() <= MaxX()` and `MinY() <= MaxY()` always hold,
    and the midpoint lies halfway between the two edges.
 */
module Geometry {

  datatype Point = Point(x: real, y: real)

  /** A rectangle given by its origin and its (possibly negative) size. */
  datatype Rect = Rect(x: real, y: real, width: real, height: real) {

    function MinX(): real { if width < 0.0 then x + width else x }
    function MaxX(): real { if width < 0.0 then x else x + width }
    function MidX(): real { x + width / 2.0 }

    function MinY(): real { if height < 0.0 then y + height else y }
    function MaxY(): real { if height < 0.0 then y else y + height }
    function MidY(): real { y + height / 2.0 }

    /** The closed rectangle contains `p`. */
    predicate Contains(p: Point) {
      MinX() <= p.x <= MaxX() && MinY() <= p.y <= MaxY()
    }

    /** The origin is the coordinate origin (as for a view's usual bounds). */
    predicate AtOrigin() {
      x == 0.0 && y == 0.0
    }
  }

  /** The rectangle with origin (0, 0) and the given size. */
  function SizedAtOrigin(width: real, height: real): Rect {
    Rect(0.0, 0.0, width, height)
  }
}
