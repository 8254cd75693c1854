/** The seven anchor positions an effect can be emitted from, and how each is
    resolved against the bounds of the target view.

    The resolution is written as the program writes it: the three top anchors
    use the literal line y = 0 and `TopLeft` is the literal point (0, 0), not
    the rectangle's minimum edges. `Edge` is the corner / edge-midpoint /
    centre mapping those anchors name; the two agree exactly when the bounds
    start at the coordinate origin. Both are points in the view's bounds
    coordinates; where the emitter then appears on screen, once its frame is
    the view's bounds, is not modelled.
 */
module Anchor {
  import opened Geometry

  datatype Position = Top | TopLeft | TopRight | Bottom | BottomLeft | BottomRight | Center

  /** The point an anchor resolves to, as the program computes it. The bottom
      row and the centre are always the named point of `bounds`; the top row
      keeps the named x but sits on the literal line y = 0, and `TopLeft` is
      the literal origin. */
  function GetPoint(position: Position, bounds: Rect): (r: Point)
    ensures Row(position) >= 0 ==> r == Edge(position, bounds)
    ensures Row(position) < 0 ==> r.y == 0.0
    ensures Column(position) >= 0 ==> r.x == Edge(position, bounds).x
    ensures position == TopLeft ==> r == Point(0.0, 0.0)
  {
    match position
    case Top => Point(bounds.MidX(), 0.0)
    case TopLeft => Point(0.0, 0.0)
    case TopRight => Point(bounds.MaxX(), 0.0)
    case Bottom => Point(bounds.MidX(), bounds.MaxY())
    case BottomLeft => Point(bounds.MinX(), bounds.MaxY())
    case BottomRight => Point(bounds.MaxX(), bounds.MaxY())
    case Center => Point(bounds.MidX(), bounds.MidY())
  }

  /** Horizontal placement an anchor names: -1 left edge, 0 middle, 1 right edge. */
  function Column(position: Position): int {
    match position
    case TopLeft | BottomLeft => -1
    case Top | Bottom | Center => 0
    case TopRight | BottomRight => 1
  }

  /** Vertical placement an anchor names: -1 top edge, 0 middle, 1 bottom edge. */
  function Row(position: Position): int {
    match position
    case Top | TopLeft | TopRight => -1
    case Center => 0
    case Bottom | BottomLeft | BottomRight => 1
  }

  /** The corner, edge midpoint or centre of `bounds` that an anchor names. */
  function Edge(position: Position, bounds: Rect): Point {
    Point(
      if Column(position) < 0 then bounds.MinX()
      else if Column(position) == 0 then bounds.MidX()
      else bounds.MaxX(),
      if Row(position) < 0 then bounds.MinY()
      else if Row(position) == 0 then bounds.MidY()
      else bounds.MaxY())
  }

  /** Every anchor resolves to the corner, edge midpoint or centre it names
      if and only if the bounds' left and top edges are the coordinate axes. */
  lemma GetPointIsEdgeIff(bounds: Rect)
    ensures (forall p :: GetPoint(p, bounds) == Edge(p, bounds))
        <==> bounds.MinX() == 0.0 && bounds.MinY() == 0.0
  {
    if forall p :: GetPoint(p, bounds) == Edge(p, bounds) {
      assert GetPoint(TopLeft, bounds) == Edge(TopLeft, bounds);
    }
    if bounds.MinX() == 0.0 && bounds.MinY() == 0.0 {
      forall p ensures GetPoint(p, bounds) == Edge(p, bounds) {
      }
    }
  }

  /** For bounds at the origin with a non-negative size, every anchor lies in
      the closed bounds rectangle. */
  lemma GetPointWithinBounds(position: Position, bounds: Rect)
    requires bounds.AtOrigin() && bounds.width >= 0.0 && bounds.height >= 0.0
    ensures bounds.Contains(GetPoint(position, bounds))
  {
  }
}
