/**
 * The recording pen the glyph outlines are drawn onto (fontTools' TTGlyphPen).
 * A pen keeps the elements drawn so far, in order, and the points of the
 * contour that is currently open.
 */
module Pens {

  datatype Point = Point(x: real, y: real)

  /** An affine transform (xx, xy, yx, yy, dx, dy), as fontTools writes it. */
  datatype Transform = Transform(xx: real, xy: real, yx: real, yy: real, dx: real, dy: real)

  type GlyphName = string

  /**
   * A recorded element: a closed polygon contour, or a glyph of the label font
   * drawn through a transform (its outline data is not modelled).
   */
  datatype Element =
    | Contour(points: seq<Point>)
    | PlacedGlyph(glyph: GlyphName, transform: Transform)

  class Pen {
    var elements: seq<Element>
    var current: seq<Point>

    /** No contour is open: the state between two drawing operations. */
    predicate Ready()
      reads this
    {
      current == []
    }

    constructor ()
      ensures elements == [] && Ready()
    {
      elements := [];
      current := [];
    }

    method MoveTo(p: Point)
      requires Ready()
      modifies this
      ensures current == [p] && elements == old(elements)
    {
      current := [p];
    }

    method LineTo(p: Point)
      requires current != []
      modifies this
      ensures current == old(current) + [p] && elements == old(elements)
    {
      current := current + [p];
    }

    method ClosePath()
      requires current != []
      modifies this
      ensures Ready() && elements == old(elements) + [Contour(old(current))]
    {
      elements := elements + [Contour(current)];
      current := [];
    }

    /** `glyph.draw(TransformPen(pen, t))`: the glyph's outline lands on this pen through `t`. */
    method DrawGlyph(glyph: GlyphName, t: Transform)
      requires Ready()
      modifies this
      ensures Ready() && elements == old(elements) + [PlacedGlyph(glyph, t)]
    {
      elements := elements + [PlacedGlyph(glyph, t)];
    }
  }
}
