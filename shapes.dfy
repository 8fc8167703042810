/**
 * The geometry primitives of font.py: rectangles, the four-strip picture
 * frame, solid and dashed strokes, and the line-style dispatch.
 */
module Shapes {
  import opened Pens

  /** Spacing of dashes: `draw_dashed_line`'s defaults `dash_width=12, gap=6`. */
  const DASH_WIDTH: int := 12
  const DASH_GAP: int := 6
  const DASH_PERIOD: int := DASH_WIDTH + DASH_GAP

  /** An axis-aligned box with corners (x1, y1) and (x2, y2). */
  datatype Box = Box(x1: real, y1: real, x2: real, y2: real)

  /** The contour `draw_rectangle` records for a box: (x1,y1), (x2,y1), (x2,y2), (x1,y2). */
  function BoxContour(b: Box): Element
  {
    Contour([Point(b.x1, b.y1), Point(b.x2, b.y1), Point(b.x2, b.y2), Point(b.x1, b.y2)])
  }

  function Contours(bs: seq<Box>): seq<Element>
  {
    if bs == [] then [] else [BoxContour(bs[0])] + Contours(bs[1..])
  }

  lemma {:induction false} ContoursAt(bs: seq<Box>)
    ensures |Contours(bs)| == |bs|
    ensures forall i :: 0 <= i < |bs| ==> Contours(bs)[i] == BoxContour(bs[i])
  {
    if bs != [] {
      ContoursAt(bs[1..]);
    }
  }

  /** Closed box membership. */
  predicate InBox(b: Box, px: real, py: real)
  {
    b.x1 <= px <= b.x2 && b.y1 <= py <= b.y2
  }

  /** Open (interior) box membership. */
  predicate InInterior(b: Box, px: real, py: real)
  {
    b.x1 < px < b.x2 && b.y1 < py < b.y2
  }

  /** The four strips of `draw_bordered_rectangle`: bottom, top, left and right. */
  function FrameBoxes(x1: real, y1: real, x2: real, y2: real, s: real): seq<Box>
  {
    [ Box(x1, y1, x2, y1 + s),
      Box(x1, y2 - s, x2, y2),
      Box(x1, y1 + s, x1 + s, y2 - s),
      Box(x2 - s, y1 + s, x2, y2 - s) ]
  }

  /**
   * When the stroke fits the box, the four strips tile the frame: a point lies
   * in some strip exactly when it lies in the box and outside the open inner
   * box, and no two strips share an interior point.
   */
  lemma FrameTiling(x1: real, y1: real, x2: real, y2: real, s: real, px: real, py: real)
    requires 0.0 <= s && 2.0 * s <= x2 - x1 && 2.0 * s <= y2 - y1
    ensures var f := FrameBoxes(x1, y1, x2, y2, s);
      (InBox(f[0], px, py) || InBox(f[1], px, py) || InBox(f[2], px, py) || InBox(f[3], px, py))
      <==> (InBox(Box(x1, y1, x2, y2), px, py) && !InInterior(Box(x1 + s, y1 + s, x2 - s, y2 - s), px, py))
    ensures var f := FrameBoxes(x1, y1, x2, y2, s);
      forall i, j :: 0 <= i < j < 4 ==> !(InInterior(f[i], px, py) && InInterior(f[j], px, py))
  {
  }

  /** The box `draw_solid_line` fills: [start, end] by [y - w/2, y + w/2]. */
  function SolidLineBox(y: real, start: real, end: real, w: real): Box
  {
    Box(start, y - w / 2.0, end, y + w / 2.0)
  }

  /** One dash starting at x: a solid line over [x, x + 12]. */
  function DashBox(y: real, x: int, w: real): Box
  {
    SolidLineBox(y, x as real, (x + DASH_WIDTH) as real, w)
  }

  /** The dashes of `range(x, stop, 18)`, each drawn as a solid line. */
  function DashBoxes(y: real, x: int, stop: int, w: real): seq<Box>
    decreases stop - x
  {
    if x >= stop then [] else [DashBox(y, x, w)] + DashBoxes(y, x + DASH_PERIOD, stop, w)
  }

  /** The number of dashes: max(0, ceil((stop - x) / 18)). */
  function DashCount(x: int, stop: int): nat
  {
    if stop <= x then 0 else (stop - x + DASH_PERIOD - 1) / DASH_PERIOD
  }

  /**
   * Dash k starts at x + 18k and spans [x + 18k, x + 18k + 12]; every dash
   * starts before `stop`, the next start would not, and there are
   * DashCount(x, stop) of them. The last dash is not clipped.
   */
  lemma {:induction false} DashLayout(y: real, x: int, stop: int, w: real)
    ensures |DashBoxes(y, x, stop, w)| == DashCount(x, stop)
    ensures forall k :: 0 <= k < |DashBoxes(y, x, stop, w)| ==>
      DashBoxes(y, x, stop, w)[k] == DashBox(y, x + DASH_PERIOD * k, w) && x + DASH_PERIOD * k < stop
    ensures x + DASH_PERIOD * |DashBoxes(y, x, stop, w)| >= stop
    decreases stop - x
  {
    if x < stop {
      DashLayout(y, x + DASH_PERIOD, stop, w);
      var rest := DashBoxes(y, x + DASH_PERIOD, stop, w);
      assert DashBoxes(y, x, stop, w) == [DashBox(y, x, w)] + rest;
      if stop - x <= DASH_PERIOD {
        assert rest == [];
      } else {
        assert (stop - x + DASH_PERIOD - 1) / DASH_PERIOD == (stop - (x + DASH_PERIOD) + DASH_PERIOD - 1) / DASH_PERIOD + 1;
      }
      forall k | 0 <= k < |DashBoxes(y, x, stop, w)|
        ensures DashBoxes(y, x, stop, w)[k] == DashBox(y, x + DASH_PERIOD * k, w) && x + DASH_PERIOD * k < stop
      {
        if k > 0 {
          assert DashBoxes(y, x, stop, w)[k] == rest[k - 1];
          assert x + DASH_PERIOD + DASH_PERIOD * (k - 1) == x + DASH_PERIOD * k;
        }
      }
    }
  }

  /**
   * Python's `round` on a float: the nearest integer, ties to the even one.
   */
  function RoundHalfEven(r: real): (n: int)
    ensures r - 0.5 <= n as real <= r + 0.5
    ensures (n as real == r - 0.5 || n as real == r + 0.5) ==> n % 2 == 0
  {
    var f := r.Floor;
    var d := r - f as real;
    if d < 0.5 then f
    else if d > 0.5 then f + 1
    else if f % 2 == 0 then f
    else f + 1
  }

  /** The contract of RoundHalfEven determines its value. */
  lemma RoundHalfEvenUnique(r: real, m: int)
    requires r - 0.5 <= m as real <= r + 0.5
    requires (m as real == r - 0.5 || m as real == r + 0.5) ==> m % 2 == 0
    ensures m == RoundHalfEven(r)
  {
  }

  /** `draw_line`'s dispatch on the style string: solid, dashed, or nothing. */
  function LineElements(y: real, start: real, end: real, style: string, w: real): seq<Element>
  {
    if style == "solid" then [BoxContour(SolidLineBox(y, start, end, w))]
    else if style == "dashed" then Contours(DashBoxes(y, RoundHalfEven(start), RoundHalfEven(end), w))
    else []
  }

  method DrawRectangle(pen: Pen, x1: real, y1: real, x2: real, y2: real)
    requires pen.Ready()
    modifies pen
    ensures pen.Ready()
    ensures pen.elements == old(pen.elements) + [Contour([Point(x1, y1), Point(x2, y1), Point(x2, y2), Point(x1, y2)])]
  {
    pen.MoveTo(Point(x1, y1));
    pen.LineTo(Point(x2, y1));
    pen.LineTo(Point(x2, y2));
    pen.LineTo(Point(x1, y2));
    assert pen.current == [Point(x1, y1), Point(x2, y1), Point(x2, y2), Point(x1, y2)];
    pen.ClosePath();
  }

  method DrawBorderedRectangle(pen: Pen, x1: real, y1: real, x2: real, y2: real, s: real)
    requires pen.Ready()
    modifies pen
    ensures pen.Ready()
    ensures pen.elements == old(pen.elements) + Contours(FrameBoxes(x1, y1, x2, y2, s))
  {
    DrawRectangle(pen, x1, y1, x2, y1 + s);
    DrawRectangle(pen, x1, y2 - s, x2, y2);
    DrawRectangle(pen, x1, y1 + s, x1 + s, y2 - s);
    DrawRectangle(pen, x2 - s, y1 + s, x2, y2 - s);
    var f := FrameBoxes(x1, y1, x2, y2, s);
    ContoursAt(f);
    assert Contours(f) == [BoxContour(f[0]), BoxContour(f[1]), BoxContour(f[2]), BoxContour(f[3])];
  }

  method DrawSolidLine(pen: Pen, y: real, start: real, end: real, w: real)
    requires pen.Ready()
    modifies pen
    ensures pen.Ready()
    ensures pen.elements == old(pen.elements) + [BoxContour(SolidLineBox(y, start, end, w))]
  {
    DrawRectangle(pen, start, y - w / 2.0, end, y + w / 2.0);
  }

  lemma DashContoursStep(y: real, x: int, stop: int, w: real)
    requires x < stop
    ensures Contours(DashBoxes(y, x, stop, w))
         == [BoxContour(DashBox(y, x, w))] + Contours(DashBoxes(y, x + DASH_PERIOD, stop, w))
  {
    var rest := DashBoxes(y, x + DASH_PERIOD, stop, w);
    assert DashBoxes(y, x, stop, w) == [DashBox(y, x, w)] + rest;
    assert ([DashBox(y, x, w)] + rest)[1..] == rest;
  }

  method DrawDashedLine(pen: Pen, y: real, start: real, end: real, w: real)
    requires pen.Ready()
    modifies pen
    ensures pen.Ready()
    ensures pen.elements == old(pen.elements) + Contours(DashBoxes(y, RoundHalfEven(start), RoundHalfEven(end), w))
  {
    var first, stop := RoundHalfEven(start), RoundHalfEven(end);
    var x := first;
    ghost var goal := pen.elements + Contours(DashBoxes(y, first, stop, w));
    while x < stop
      invariant pen.Ready()
      invariant pen.elements + Contours(DashBoxes(y, x, stop, w)) == goal
      decreases stop - x
    {
      ghost var before := pen.elements;
      DrawSolidLine(pen, y, x as real, (x + DASH_WIDTH) as real, w);
      DashContoursStep(y, x, stop, w);
      ghost var rest := Contours(DashBoxes(y, x + DASH_PERIOD, stop, w));
      assert before + [BoxContour(DashBox(y, x, w))] + rest == before + ([BoxContour(DashBox(y, x, w))] + rest);
      x := x + DASH_PERIOD;
    }
  }

  method DrawLine(pen: Pen, y: real, start: real, end: real, style: string, w: real)
    requires pen.Ready()
    modifies pen
    ensures pen.Ready()
    ensures pen.elements == old(pen.elements) + LineElements(y, start, end, style, w)
  {
    if style == "solid" {
      DrawSolidLine(pen, y, start, end, w);
    } else if style == "dashed" {
      DrawDashedLine(pen, y, start, end, w);
    }
  }
}
