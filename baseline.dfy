/**
 * `draw_baseline`: one horizontal line across the em box at height y, broken
 * around a centred label when the baseline has one.
 */
module Baselines {
  import opened Wrappers
  import opened Pens
  import opened Shapes
  import opened Text

  /** The em box: 800 units above the baseline, 200 below, 1000 in all. */
  const EM_ASCENT: int := 800
  const EM_DESCENT: int := 200
  const EM_SIZE: int := EM_ASCENT + EM_DESCENT
  /** Width of the frame drawn around every glyph, and the margin left around lines. */
  const BORDER_WIDTH: int := 12

  /** `FontBaselineStyle`: a stroke style name and a stroke width. */
  datatype LineStyle = LineStyle(strokeStyle: string, strokeWidth: int)

  const SOLID: LineStyle := LineStyle("solid", 12)
  const DASHED: LineStyle := LineStyle("dashed", 8)

  /** The fixed text parameters of the label in `draw_baseline`: size 50, no vertical scaling, no letter gap. */
  const LABEL_FONT_SIZE: real := 50.0
  const LABEL_SCALE_Y: real := 1.0
  const LABEL_LETTER_GAP: real := 0.0
  /** `draw_text_centered`'s default vertical offset, as a fraction of the text height. */
  const LABEL_OFFSET_Y: real := -0.1

  /** The x of the label centre: the middle of the em (`EM_SIZE / 2`). */
  const LABEL_CENTRE_X: real := EM_SIZE as real / 2.0
  /** The ends of an undivided line: one border width in from each side. */
  const LINE_START: real := BORDER_WIDTH as real
  const LINE_END: real := (EM_SIZE - BORDER_WIDTH) as real

  /** Python truthiness of the label: present and non-empty. */
  predicate HasLabel(labelText: Option<string>)
  {
    labelText.Some? && labelText.value != ""
  }

  /** The label as `draw_baseline` lays it out: centred on (500, y). */
  function LabelLayout(font: LabelFont, labelText: string, y: real): Result<TextLayout, Failure>
  {
    CenteredText(font, labelText, LABEL_CENTRE_X, y, LABEL_FONT_SIZE, LABEL_SCALE_Y, LABEL_LETTER_GAP, LABEL_OFFSET_Y)
  }

  /** The end of the left segment: one border width before the label box. */
  function LeftEnd(r: Rect): real
  {
    r.x - BORDER_WIDTH as real
  }

  /** The start of the right segment: one border width after the label box. */
  function RightStart(r: Rect): real
  {
    r.x + r.width + BORDER_WIDTH as real
  }

  /**
   * Everything `draw_baseline` records, in order: the label glyphs and the two
   * flanking segments, or the single full-width segment; or the failure of
   * looking up a label character.
   */
  function BaselineElements(font: LabelFont, y: real, labelText: Option<string>, style: string, w: real)
    : Result<seq<Element>, Failure>
  {
    if HasLabel(labelText) then
      match LabelLayout(font, labelText.value, y)
      case Err(e) => Err(e)
      case Ok(l) =>
        Ok(l.elements + LineElements(y, LINE_START, LeftEnd(l.rect), style, w)
                      + LineElements(y, RightStart(l.rect), LINE_END, style, w))
    else
      Ok(LineElements(y, LINE_START, LINE_END, style, w))
  }

  /** A baseline fails exactly when it has a label with a character the label font does not map. */
  lemma BaselineFails(font: LabelFont, y: real, labelText: Option<string>, style: string, w: real)
    ensures BaselineElements(font, y, labelText, style, w).Err?
        <==> HasLabel(labelText) && exists i :: 0 <= i < |labelText.value| && !Mapped(font, labelText.value[i])
  {
  }

  /**
   * With a label, the label box is 50 high and 50 times the text width wide,
   * centred on (500, y); then come exactly two segments, from 12 to one border
   * width before the box and from one border width after the box to 988, and
   * the two segments have the same length.
   */
  lemma LabelledBaseline(font: LabelFont, y: real, labelText: string, style: string, w: real)
    requires labelText != ""
    requires BaselineElements(font, y, Some(labelText), style, w).Ok?
    ensures Measure(font, labelText, LABEL_LETTER_GAP).Ok? && LabelLayout(font, labelText, y).Ok?
    ensures var m := Measure(font, labelText, LABEL_LETTER_GAP).value;
      var l := LabelLayout(font, labelText, y).value;
      && l.rect.width == 50.0 * Width(m) && l.rect.height == 50.0
      && l.rect.x + l.rect.width / 2.0 == 500.0 && l.rect.y + l.rect.height / 2.0 == y
      && LeftEnd(l.rect) == l.rect.x - 12.0 && RightStart(l.rect) == l.rect.x + l.rect.width + 12.0
      && LeftEnd(l.rect) - 12.0 == 988.0 - RightStart(l.rect)
      && BaselineElements(font, y, Some(labelText), style, w).value
         == l.elements + LineElements(y, 12.0, LeftEnd(l.rect), style, w) + LineElements(y, RightStart(l.rect), 988.0, style, w)
  {
    var m := Measure(font, labelText, LABEL_LETTER_GAP).value;
    LayoutGeometry(m, LABEL_CENTRE_X, y, LABEL_FONT_SIZE, LABEL_SCALE_Y, LABEL_OFFSET_Y);
  }

  /**
   * Without a label: a solid baseline is the single box [12, 988] by
   * [y - w/2, y + w/2]; a dashed one is 55 dashes starting at 12, 30, ...,
   * 984, the last running on to 996; any other style draws nothing.
   */
  lemma UnlabelledBaseline(font: LabelFont, y: real, labelText: Option<string>, style: string, w: real)
    requires !HasLabel(labelText)
    ensures BaselineElements(font, y, labelText, style, w).Ok?
    ensures style == "solid" ==>
      BaselineElements(font, y, labelText, style, w).value == [BoxContour(Box(12.0, y - w / 2.0, 988.0, y + w / 2.0))]
    ensures style == "dashed" ==>
      var es := BaselineElements(font, y, labelText, style, w).value;
      && |es| == 55
      && (forall k :: 0 <= k < 55 ==> es[k] == BoxContour(Box((12 + 18 * k) as real, y - w / 2.0, (24 + 18 * k) as real, y + w / 2.0)))
    ensures style != "solid" && style != "dashed" ==> BaselineElements(font, y, labelText, style, w).value == []
  {
    if style == "dashed" {
      RoundHalfEvenUnique(LINE_START, 12);
      RoundHalfEvenUnique(LINE_END, 988);
      DashLayout(y, 12, 988, w);
      ContoursAt(DashBoxes(y, 12, 988, w));
    }
  }

  /** `draw_baseline`, recording on the pen; a label lookup failure leaves the pen as it was. */
  method DrawBaseline(pen: Pen, font: LabelFont, y: real, labelText: Option<string>, style: string, w: real)
    returns (r: Outcome<Failure>)
    requires pen.Ready()
    modifies pen
    ensures pen.Ready()
    ensures match BaselineElements(font, y, labelText, style, w)
      case Err(e) => r == Fail(e) && pen.elements == old(pen.elements)
      case Ok(es) => r == Pass && pen.elements == old(pen.elements) + es
  {
    if HasLabel(labelText) {
      ghost var layout := LabelLayout(font, labelText.value, y);
      ghost var before := pen.elements;
      var drawn := DrawTextCentered(pen, font, labelText.value, LABEL_CENTRE_X, y, LABEL_FONT_SIZE, LABEL_SCALE_Y,
                                    LABEL_LETTER_GAP, LABEL_OFFSET_Y);
      if drawn.Err? {
        return Fail(drawn.error);
      }
      assert layout.Ok? && drawn.value == layout.value.rect;
      DrawLine(pen, y, LINE_START, LeftEnd(drawn.value), style, w);
      DrawLine(pen, y, RightStart(drawn.value), LINE_END, style, w);
      assert pen.elements == before + layout.value.elements
        + LineElements(y, LINE_START, LeftEnd(layout.value.rect), style, w)
        + LineElements(y, RightStart(layout.value.rect), LINE_END, style, w);
    } else {
      DrawLine(pen, y, LINE_START, LINE_END, style, w);
    }
    r := Pass;
  }
}
