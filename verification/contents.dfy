/** The particle textures: the three built-in shapes, their outlines, and the
    content items that resolve to an image.

    Rasterization itself (allocating a bitmap and filling the outline in white)
    belongs to the host's rendering library; an image is modelled as an opaque
    token that records the canvas it was drawn on and the outline filled in it.
 */
module Contents {
  import opened Geometry

  datatype Shape = Circle | Triangle | Square

  /** The outline handed to the renderer. */
  datatype Path =
    | Ellipse(frame: Rect)          // ellipse inscribed in `frame`
    | Box(frame: Rect)              // the rectangle `frame` itself
    | Polyline(vertices: seq<Point>) // straight segments through the vertices

  /** A particle texture: either rendered here from an outline, or an image
      the caller supplied (an opaque token). */
  datatype Image =
    | Rendered(canvas: Rect, outline: Path)
    | Supplied(id: nat)

  /** One content item: a shape of the given width and height, or an image. */
  datatype Content =
    | ShapeItem(shape: Shape, width: real, height: real)
    | ImageItem(image: Image)

  /** The triangle outline: an apex at the middle of the literal line y = 0,
      then the bottom-right and bottom-left corners, then back to the apex.
      The apex height is the literal 0, not the rectangle's top edge, so the
      apex lies on that edge only when the top edge is the line y = 0 (as it
      is on the origin-zero canvas of `ShapeImage`). */
  function TriangleVertices(rect: Rect): (vs: seq<Point>)
    ensures |vs| == 4
    ensures vs[0] == vs[|vs| - 1]
    ensures vs[0].y == 0.0
    ensures vs[1].y == vs[2].y == rect.MaxY()
    ensures vs[2].x == rect.MinX()
    ensures vs[1].x - vs[2].x == rect.MaxX() - rect.MinX()
    ensures vs[0].x - vs[2].x == vs[1].x - vs[0].x
  {
    [ Point(rect.MidX(), 0.0),
      Point(rect.MaxX(), rect.MaxY()),
      Point(rect.MinX(), rect.MaxY()),
      Point(rect.MidX(), 0.0) ]
  }

  /** The outline of `shape` in `rect`: an ellipse inscribed in `rect` for the
      circle, `rect` itself for the square, the closed triangle polyline for
      the triangle. */
  function ShapePath(shape: Shape, rect: Rect): (p: Path)
    ensures p.Ellipse? <==> shape == Circle
    ensures p.Box? <==> shape == Square
    ensures p.Polyline? <==> shape == Triangle
    ensures !p.Polyline? ==> p.frame == rect
    ensures p.Polyline? ==> p.vertices == TriangleVertices(rect)
  {
    match shape
    case Circle => Ellipse(rect)
    case Triangle => Polyline(TriangleVertices(rect))
    case Square => Box(rect)
  }

  /** The texture of a shape: its outline drawn on a width x height canvas
      whose origin is (0, 0). */
  function ShapeImage(shape: Shape, width: real, height: real): (img: Image)
    ensures img.Rendered?
    ensures img.canvas.AtOrigin()
    ensures img.canvas.width == width && img.canvas.height == height
    ensures img.outline == ShapePath(shape, img.canvas)
  {
    var canvas := SizedAtOrigin(width, height);
    Rendered(canvas, ShapePath(shape, canvas))
  }

  /** The image of a content item: a shape is rendered, an image is used as
      given. */
  function ContentImage(c: Content): (img: Image)
    ensures c.ImageItem? ==> img == c.image
    ensures c.ShapeItem? ==> img.Rendered? && img == ShapeImage(c.shape, c.width, c.height)
  {
    match c
    case ShapeItem(shape, width, height) => ShapeImage(shape, width, height)
    case ImageItem(image) => image
  }

  /** Squared distance between two points. */
  function Dist2(p: Point, q: Point): real {
    (p.x - q.x) * (p.x - q.x) + (p.y - q.y) * (p.y - q.y)
  }

  /** The triangle is isosceles: its apex is equally far from both base
      corners, for every rectangle. */
  lemma TriangleIsosceles(rect: Rect)
    ensures var vs := TriangleVertices(rect);
      Dist2(vs[0], vs[1]) == Dist2(vs[0], vs[2])
  {
  }

  /** Every defining point of `path` lies in the closed rectangle `canvas`. */
  predicate OutlineWithin(path: Path, canvas: Rect) {
    match path
    case Ellipse(frame) => frame == canvas
    case Box(frame) => frame == canvas
    case Polyline(vs) => forall i :: 0 <= i < |vs| ==> canvas.Contains(vs[i])
  }

  /** A rendered shape never leaves its canvas: the frame of the circle and of
      the square is the canvas, and every triangle vertex lies inside it, the
      apex on the top edge. */
  lemma ShapeImageOutlineWithinCanvas(shape: Shape, width: real, height: real)
    requires width >= 0.0 && height >= 0.0
    ensures var img := ShapeImage(shape, width, height);
      OutlineWithin(img.outline, img.canvas)
    ensures shape == Triangle ==>
      ShapeImage(shape, width, height).outline.vertices[0].y
        == ShapeImage(shape, width, height).canvas.MinY()
  {
  }
}
