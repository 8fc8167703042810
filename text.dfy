/**
 * Text measurement and centred label layout (`TextMetrics`, `measure_text`,
 * `draw_text_centered`). The label font is abstracted to its em size, its
 * character map and its horizontal advances; glyph outlines are opaque.
 */
module Text {
  import opened Wrappers
  import opened Pens

  type PositiveInt = n: int | n > 0 witness 1

  /** What layout needs of the label font: unitsPerEm, the cmap and the hmtx advances. */
  datatype LabelFont = LabelFont(unitsPerEm: PositiveInt, cmap: map<char, GlyphName>, advances: map<GlyphName, int>)

  /** A glyph of the label font and its advance in em units. */
  datatype GlyphMetrics = GlyphMetrics(glyph: GlyphName, width: real)

  datatype TextMetrics = TextMetrics(scale: real, letterGap: real, glyphs: seq<GlyphMetrics>)

  /** The bounding box of drawn text. */
  datatype Rect = Rect(x: real, y: real, width: real, height: real)

  /** The rectangle a centred label occupies, and the glyph placements drawing it. */
  datatype TextLayout = TextLayout(rect: Rect, elements: seq<Element>)

  function SumWidths(gs: seq<GlyphMetrics>): real
  {
    if gs == [] then 0.0 else gs[0].width + SumWidths(gs[1..])
  }

  /** `TextMetrics.width`: 0 without glyphs, else the advances plus one letter gap between neighbours. */
  function Width(m: TextMetrics): real
  {
    if |m.glyphs| == 0 then 0.0 else SumWidths(m.glyphs) + m.letterGap * (|m.glyphs| - 1) as real
  }

  /** How far the cursor has moved before glyph i, in em units: the sum over j < i of (w_j + gap). */
  function Advance(gs: seq<GlyphMetrics>, i: nat, gap: real): real
    requires i <= |gs|
  {
    if i == 0 then 0.0 else gs[0].width + gap + Advance(gs[1..], i - 1, gap)
  }

  /** The width of a non-empty text is the full cursor advance less the trailing letter gap. */
  lemma {:induction false} WidthIsAdvanceLessGap(m: TextMetrics)
    requires |m.glyphs| > 0
    ensures Width(m) == Advance(m.glyphs, |m.glyphs|, m.letterGap) - m.letterGap
  {
    SumIsAdvanceLessGaps(m.glyphs, m.letterGap);
  }

  lemma {:induction false} SumIsAdvanceLessGaps(gs: seq<GlyphMetrics>, gap: real)
    requires |gs| > 0
    ensures SumWidths(gs) + gap * (|gs| - 1) as real == Advance(gs, |gs|, gap) - gap
  {
    if |gs| > 1 {
      SumIsAdvanceLessGaps(gs[1..], gap);
      assert gap * (|gs| - 1) as real == gap * (|gs| - 2) as real + gap;
    }
  }

  /** A character the label font can draw: it is in the cmap and its glyph has an advance. */
  predicate Mapped(font: LabelFont, c: char)
  {
    c in font.cmap && font.cmap[c] in font.advances
  }

  /** The metrics `measure_text` records for one character: its glyph, advance / unitsPerEm. */
  function GlyphOf(font: LabelFont, c: char): GlyphMetrics
    requires Mapped(font, c)
  {
    GlyphMetrics(font.cmap[c], font.advances[font.cmap[c]] as real / font.unitsPerEm as real)
  }

  /**
   * The per-character loop of `measure_text`: one glyph per character, in
   * order, failing at the first character the label font cannot draw.
   */
  function MeasureGlyphs(font: LabelFont, text: string): (r: Result<seq<GlyphMetrics>, Failure>)
    ensures r.Ok? <==> forall i :: 0 <= i < |text| ==> Mapped(font, text[i])
    ensures r.Ok? ==> |r.value| == |text| && forall i :: 0 <= i < |text| ==> r.value[i] == GlyphOf(font, text[i])
    ensures r.Err? ==> exists i :: 0 <= i < |text| && !Mapped(font, text[i]) && r.error == GlyphNotFound(text[i])
                                   && forall j :: 0 <= j < i ==> Mapped(font, text[j])
  {
    if text == [] then Ok([])
    else if !Mapped(font, text[0]) then Err(GlyphNotFound(text[0]))
    else
      match MeasureGlyphs(font, text[1..])
      case Err(e) => Err(e)
      case Ok(rest) => Ok([GlyphOf(font, text[0])] + rest)
  }

  /** Measuring fails with the first character the label font cannot draw. */
  lemma {:induction false} MeasureFailsAt(font: LabelFont, text: string, i: nat)
    requires i < |text| && !Mapped(font, text[i])
    requires forall j :: 0 <= j < i ==> Mapped(font, text[j])
    ensures MeasureGlyphs(font, text) == Err(GlyphNotFound(text[i]))
  {
    if i > 0 {
      MeasureFailsAt(font, text[1..], i - 1);
    }
  }

  /** `measure_text`: the glyph metrics, the scale 1 / unitsPerEm and the letter gap. */
  function Measure(font: LabelFont, text: string, gap: real): Result<TextMetrics, Failure>
  {
    match MeasureGlyphs(font, text)
    case Err(e) => Err(e)
    case Ok(gs) => Ok(TextMetrics(1.0 / font.unitsPerEm as real, gap, gs))
  }

  method MeasureText(font: LabelFont, text: string, gap: real) returns (r: Result<TextMetrics, Failure>)
    ensures r == Measure(font, text, gap)
  {
    var glyphs: seq<GlyphMetrics> := [];
    var i := 0;
    while i < |text|
      invariant 0 <= i <= |text|
      invariant forall j :: 0 <= j < i ==> Mapped(font, text[j])
      invariant |glyphs| == i
      invariant forall j :: 0 <= j < i ==> glyphs[j] == GlyphOf(font, text[j])
    {
      var c := text[i];
      if !(c in font.cmap && font.cmap[c] in font.advances) {
        MeasureFailsAt(font, text, i);
        return Err(GlyphNotFound(c));
      }
      glyphs := glyphs + [GlyphOf(font, c)];
      i := i + 1;
    }
    assert MeasureGlyphs(font, text).value == glyphs;
    r := Ok(TextMetrics(1.0 / font.unitsPerEm as real, gap, glyphs));
  }

  /** The rectangle `draw_text_centered` returns: the scaled text box centred on (x, y). */
  function CenteredRect(m: TextMetrics, x: real, y: real, fontSize: real, scaleY: real): Rect
  {
    var height := fontSize * scaleY;
    var width := Width(m) * fontSize;
    Rect(x - width / 2.0, y - height / 2.0, width, height)
  }

  /** The rectangle is fontSize * width by fontSize * scaleY and its centre is (x, y). */
  lemma CenteredRectIsCentred(m: TextMetrics, x: real, y: real, fontSize: real, scaleY: real)
    ensures var r := CenteredRect(m, x, y, fontSize, scaleY);
      && r.width == fontSize * Width(m) && r.height == fontSize * scaleY
      && r.x + r.width / 2.0 == x && r.y + r.height / 2.0 == y
  {
  }

  /** The transform each glyph is drawn through, with the cursor at (xPos, yPos). */
  function GlyphTransform(scale: real, fontSize: real, scaleY: real, xPos: real, yPos: real): Transform
  {
    Transform(fontSize * scale, 0.0, 0.0, fontSize * scaleY * scale, xPos, yPos)
  }

  /** How far the cursor moves past one glyph: fontSize * (w + gap). */
  function CursorStep(g: GlyphMetrics, fontSize: real, gap: real): real
  {
    fontSize * (g.width + gap)
  }

  /** The glyph drawings of the layout loop, the cursor starting at xPos and stepping by fontSize * (w + gap). */
  function GlyphElements(gs: seq<GlyphMetrics>, scale: real, fontSize: real, scaleY: real, gap: real,
                         xPos: real, yPos: real): (r: seq<Element>)
    ensures |r| == |gs|
  {
    if gs == [] then []
    else [PlacedGlyph(gs[0].glyph, GlyphTransform(scale, fontSize, scaleY, xPos, yPos))]
         + GlyphElements(gs[1..], scale, fontSize, scaleY, gap, xPos + CursorStep(gs[0], fontSize, gap), yPos)
  }

  /** The cursor position before glyph i when the first glyph is drawn at xPos. */
  function CursorAt(gs: seq<GlyphMetrics>, i: nat, gap: real, fontSize: real, xPos: real): real
    requires i <= |gs|
  {
    xPos + fontSize * Advance(gs, i, gap)
  }

  lemma Distribute(a: real, b: real, c: real)
    ensures a * (b + c) == a * b + a * c
  {
  }

  /** Glyph i is drawn with x-translation xPos + fontSize * Advance(gs, i, gap). */
  lemma {:induction false} GlyphAt(gs: seq<GlyphMetrics>, scale: real, fontSize: real, scaleY: real, gap: real,
                                   xPos: real, yPos: real, i: nat)
    requires i < |gs|
    ensures GlyphElements(gs, scale, fontSize, scaleY, gap, xPos, yPos)[i]
      == PlacedGlyph(gs[i].glyph, GlyphTransform(scale, fontSize, scaleY, CursorAt(gs, i, gap, fontSize, xPos), yPos))
  {
    var step := CursorStep(gs[0], fontSize, gap);
    var rest := GlyphElements(gs[1..], scale, fontSize, scaleY, gap, xPos + step, yPos);
    assert GlyphElements(gs, scale, fontSize, scaleY, gap, xPos, yPos)
        == [PlacedGlyph(gs[0].glyph, GlyphTransform(scale, fontSize, scaleY, xPos, yPos))] + rest;
    if i > 0 {
      GlyphAt(gs[1..], scale, fontSize, scaleY, gap, xPos + step, yPos, i - 1);
      var a := Advance(gs[1..], i - 1, gap);
      assert gs[1..][i - 1] == gs[i];
      Distribute(fontSize, gs[0].width + gap, a);
      assert xPos + step + fontSize * a == CursorAt(gs, i, gap, fontSize, xPos);
      assert GlyphElements(gs, scale, fontSize, scaleY, gap, xPos, yPos)[i] == rest[i - 1];
    } else {
      assert CursorAt(gs, i, gap, fontSize, xPos) == xPos + fontSize * 0.0 == xPos;
    }
  }

  /** Every glyph i is drawn with x-translation xPos + fontSize * Advance(gs, i, gap). */
  lemma {:induction false} GlyphPlacement(gs: seq<GlyphMetrics>, scale: real, fontSize: real, scaleY: real, gap: real,
                                          xPos: real, yPos: real)
    ensures |GlyphElements(gs, scale, fontSize, scaleY, gap, xPos, yPos)| == |gs|
    ensures forall i :: 0 <= i < |gs| ==>
      GlyphElements(gs, scale, fontSize, scaleY, gap, xPos, yPos)[i]
      == PlacedGlyph(gs[i].glyph, GlyphTransform(scale, fontSize, scaleY, CursorAt(gs, i, gap, fontSize, xPos), yPos))
  {
    forall i | 0 <= i < |gs|
      ensures GlyphElements(gs, scale, fontSize, scaleY, gap, xPos, yPos)[i]
           == PlacedGlyph(gs[i].glyph, GlyphTransform(scale, fontSize, scaleY, CursorAt(gs, i, gap, fontSize, xPos), yPos))
    {
      GlyphAt(gs, scale, fontSize, scaleY, gap, xPos, yPos, i);
    }
  }

  lemma GlyphElementsStep(gs: seq<GlyphMetrics>, scale: real, fontSize: real, scaleY: real, gap: real,
                          xPos: real, yPos: real)
    requires gs != []
    ensures GlyphElements(gs, scale, fontSize, scaleY, gap, xPos, yPos)
         == [PlacedGlyph(gs[0].glyph, GlyphTransform(scale, fontSize, scaleY, xPos, yPos))]
            + GlyphElements(gs[1..], scale, fontSize, scaleY, gap, xPos + CursorStep(gs[0], fontSize, gap), yPos)
  {
  }

  /** The y of the glyph baseline: the bottom of the rectangle moved down by offsetY of its height. */
  function GlyphBaseline(r: Rect, offsetY: real): real
  {
    r.y - r.height * offsetY
  }

  /** Where `draw_text_centered` puts measured text centred on (x, y). */
  function Layout(m: TextMetrics, x: real, y: real, fontSize: real, scaleY: real, offsetY: real): TextLayout
  {
    var r := CenteredRect(m, x, y, fontSize, scaleY);
    TextLayout(r, GlyphElements(m.glyphs, m.scale, fontSize, scaleY, m.letterGap, r.x, GlyphBaseline(r, offsetY)))
  }

  /** `draw_text_centered` as a value: the rectangle and the glyph drawings, or the measuring failure. */
  function CenteredText(font: LabelFont, text: string, x: real, y: real, fontSize: real, scaleY: real,
                        gap: real, offsetY: real): Result<TextLayout, Failure>
  {
    match Measure(font, text, gap)
    case Err(e) => Err(e)
    case Ok(m) => Ok(Layout(m, x, y, fontSize, scaleY, offsetY))
  }

  /**
   * Measured text of n glyphs laid out centred on (x, y): the box is
   * fontSize * width wide and fontSize * scaleY high with centre (x, y);
   * glyph i is drawn at CursorAt(i), that is rect.x + fontSize * Advance(i),
   * shifted vertically by -height * offsetY; and for n > 0 the cursor ends
   * one scaled letter gap past the right edge of the box.
   */
  lemma LayoutGeometry(m: TextMetrics, x: real, y: real, fontSize: real, scaleY: real, offsetY: real)
    ensures var l := Layout(m, x, y, fontSize, scaleY, offsetY);
      && l.rect.width == fontSize * Width(m) && l.rect.height == fontSize * scaleY
      && l.rect.x + l.rect.width / 2.0 == x && l.rect.y + l.rect.height / 2.0 == y
      && |l.elements| == |m.glyphs|
      && (forall i :: 0 <= i < |m.glyphs| ==>
            l.elements[i] == PlacedGlyph(m.glyphs[i].glyph,
              GlyphTransform(m.scale, fontSize, scaleY, CursorAt(m.glyphs, i, m.letterGap, fontSize, l.rect.x),
                             l.rect.y - l.rect.height * offsetY)))
      && GlyphBaseline(l.rect, offsetY) == l.rect.y - l.rect.height * offsetY
      && (|m.glyphs| > 0 ==>
            CursorAt(m.glyphs, |m.glyphs|, m.letterGap, fontSize, l.rect.x) == l.rect.x + l.rect.width + fontSize * m.letterGap)
  {
    var r := CenteredRect(m, x, y, fontSize, scaleY);
    var yT := GlyphBaseline(r, offsetY);
    CenteredRectIsCentred(m, x, y, fontSize, scaleY);
    assert Layout(m, x, y, fontSize, scaleY, offsetY) == TextLayout(r, GlyphElements(m.glyphs, m.scale, fontSize, scaleY, m.letterGap, r.x, yT));
    GlyphPlacement(m.glyphs, m.scale, fontSize, scaleY, m.letterGap, r.x, yT);
    if |m.glyphs| > 0 {
      WidthIsAdvanceLessGap(m);
      var a := Advance(m.glyphs, |m.glyphs|, m.letterGap);
      assert fontSize * (a - m.letterGap) == fontSize * a - fontSize * m.letterGap;
    }
  }

  /** Measured text has one glyph per character, the character's glyph in the cmap, and the given letter gap. */
  lemma MeasuredGlyphs(font: LabelFont, text: string, gap: real)
    requires Measure(font, text, gap).Ok?
    ensures var m := Measure(font, text, gap).value;
      && m.letterGap == gap && m.scale == 1.0 / font.unitsPerEm as real && |m.glyphs| == |text|
      && forall i :: 0 <= i < |text| ==> text[i] in font.cmap && m.glyphs[i].glyph == font.cmap[text[i]]
  {
  }

  /** The returned rectangle does not depend on offsetY, which moves only the glyphs. */
  lemma CenteredRectIgnoresOffset(font: LabelFont, text: string, x: real, y: real, fontSize: real, scaleY: real,
                                  gap: real, offsetY1: real, offsetY2: real)
    ensures CenteredText(font, text, x, y, fontSize, scaleY, gap, offsetY1).Ok?
        <==> CenteredText(font, text, x, y, fontSize, scaleY, gap, offsetY2).Ok?
    ensures CenteredText(font, text, x, y, fontSize, scaleY, gap, offsetY1).Ok? ==>
      CenteredText(font, text, x, y, fontSize, scaleY, gap, offsetY1).value.rect
      == CenteredText(font, text, x, y, fontSize, scaleY, gap, offsetY2).value.rect
  {
  }

  /** The glyph loop of `draw_text_centered`: each glyph through its transform, the cursor stepping right. */
  method DrawGlyphs(pen: Pen, m: TextMetrics, fontSize: real, scaleY: real, xStart: real, yT: real)
    requires pen.Ready()
    modifies pen
    ensures pen.Ready()
    ensures pen.elements == old(pen.elements) + GlyphElements(m.glyphs, m.scale, fontSize, scaleY, m.letterGap, xStart, yT)
  {
    var xPos := xStart;
    ghost var goal := pen.elements + GlyphElements(m.glyphs, m.scale, fontSize, scaleY, m.letterGap, xPos, yT);
    ghost var todo := m.glyphs;
    var i := 0;
    while i < |m.glyphs|
      invariant 0 <= i <= |m.glyphs|
      invariant todo == m.glyphs[i..]
      invariant pen.Ready()
      invariant pen.elements + GlyphElements(todo, m.scale, fontSize, scaleY, m.letterGap, xPos, yT) == goal
    {
      var g := m.glyphs[i];
      assert todo[0] == g;
      ghost var before := pen.elements;
      ghost var placed := PlacedGlyph(g.glyph, GlyphTransform(m.scale, fontSize, scaleY, xPos, yT));
      ghost var rest := GlyphElements(todo[1..], m.scale, fontSize, scaleY, m.letterGap, xPos + CursorStep(g, fontSize, m.letterGap), yT);
      GlyphElementsStep(todo, m.scale, fontSize, scaleY, m.letterGap, xPos, yT);
      pen.DrawGlyph(g.glyph, GlyphTransform(m.scale, fontSize, scaleY, xPos, yT));
      assert before + [placed] + rest == before + ([placed] + rest);
      xPos := xPos + CursorStep(g, fontSize, m.letterGap);
      i := i + 1;
      todo := todo[1..];
    }
  }

  method DrawTextCentered(pen: Pen, font: LabelFont, text: string, x: real, y: real, fontSize: real,
                          scaleY: real, gap: real, offsetY: real) returns (r: Result<Rect, Failure>)
    requires pen.Ready()
    modifies pen
    ensures pen.Ready()
    ensures var t := CenteredText(font, text, x, y, fontSize, scaleY, gap, offsetY);
      match t
      case Err(e) => r == Err(e) && pen.elements == old(pen.elements)
      case Ok(l) => r == Ok(l.rect) && pen.elements == old(pen.elements) + l.elements
  {
    var measured := MeasureText(font, text, gap);
    if measured.Err? {
      return Err(measured.error);
    }
    var m := measured.value;
    // The glyph cursor starts at the box's lower-left corner.
    var rect := CenteredRect(m, x, y, fontSize, scaleY);
    DrawGlyphs(pen, m, fontSize, scaleY, rect.x, GlyphBaseline(rect, offsetY));
    r := Ok(rect);
  }
}
