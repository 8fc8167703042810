/**
 * `build_baselines_font`: the two glyphs drawn on recording pens, and the
 * values handed to the font builder for every table it sets up.
 */
module Build {
  import opened Wrappers
  import opened Pens
  import opened Shapes
  import opened Text
  import opened Baselines
  import opened Tags
  import opened Tables

  /** The frame around the whole em box, (0, -200) to (1000, 800) with 12-unit strips. */
  function EmFrame(): seq<Element>
  {
    Contours(FrameBoxes(0.0, -(EM_DESCENT as real), EM_SIZE as real, EM_ASCENT as real, BORDER_WIDTH as real))
  }

  /** What one entry draws: its baseline when it has a style, nothing otherwise. */
  function EntryDrawing(font: LabelFont, b: FontBaseline): Result<seq<Element>, Failure>
  {
    match b.style
    case None => Ok([])
    case Some(s) => BaselineElements(font, b.position as real, b.labelText, s.strokeStyle, s.strokeWidth as real)
  }

  /** The drawings of the entries in list order, stopping at the first label that fails. */
  function StyledDrawings(font: LabelFont, bs: seq<FontBaseline>): Result<seq<Element>, Failure>
  {
    if bs == [] then Ok([])
    else
      match StyledDrawings(font, bs[..|bs| - 1])
      case Err(e) => Err(e)
      case Ok(d) =>
        match EntryDrawing(font, bs[|bs| - 1])
        case Err(e) => Err(e)
        case Ok(d1) => Ok(d + d1)
  }

  /** The entries that have a style, in list order. */
  function Styled(bs: seq<FontBaseline>): (r: seq<FontBaseline>)
    ensures forall b :: b in r <==> b in bs && b.style.Some?
  {
    if bs == [] then []
    else Styled(bs[..|bs| - 1]) + (if bs[|bs| - 1].style.Some? then [bs[|bs| - 1]] else [])
  }

  /** Only entries with a style draw anything: dropping the others changes nothing. */
  lemma {:induction false} StyledDrawingsOfStyled(font: LabelFont, bs: seq<FontBaseline>)
    ensures StyledDrawings(font, bs) == StyledDrawings(font, Styled(bs))
  {
    if bs != [] {
      var init, b := bs[..|bs| - 1], bs[|bs| - 1];
      StyledDrawingsOfStyled(font, init);
      if b.style.Some? {
        var s := Styled(init) + [b];
        assert Styled(bs) == s;
        assert s[..|s| - 1] == Styled(init);
      } else {
        assert Styled(bs) == Styled(init) + [];
        assert Styled(init) + [] == Styled(init);
        if StyledDrawings(font, init).Ok? {
          assert StyledDrawings(font, init).value + [] == StyledDrawings(font, init).value;
        }
      }
    }
  }

  /**
   * The drawings fail exactly when some entry's drawing fails, and then with
   * the failure of the first such entry.
   */
  lemma {:induction false} StyledDrawingsFails(font: LabelFont, bs: seq<FontBaseline>)
    ensures StyledDrawings(font, bs).Err? <==> exists i :: 0 <= i < |bs| && EntryDrawing(font, bs[i]).Err?
    ensures StyledDrawings(font, bs).Err? ==>
      exists i :: 0 <= i < |bs| && EntryDrawing(font, bs[i]) == Err(StyledDrawings(font, bs).error)
                  && forall j :: 0 <= j < i ==> EntryDrawing(font, bs[j]).Ok?
  {
    if bs != [] {
      var init := bs[..|bs| - 1];
      StyledDrawingsFails(font, init);
      if exists i :: 0 <= i < |init| && EntryDrawing(font, init[i]).Err? {
        var i :| 0 <= i < |init| && EntryDrawing(font, init[i]).Err?;
        assert bs[i] == init[i];
      }
      if StyledDrawings(font, init).Err? {
        var i :| 0 <= i < |init| && EntryDrawing(font, init[i]) == Err(StyledDrawings(font, init).error)
                 && forall j :: 0 <= j < i ==> EntryDrawing(font, init[j]).Ok?;
        assert bs[i] == init[i];
        assert forall j :: 0 <= j < i ==> bs[j] == init[j];
      } else {
        assert forall j :: 0 <= j < |init| ==> bs[j] == init[j];
      }
    }
  }

  /** A failure among the first k entries is the failure of the whole list. */
  lemma {:induction false} StyledDrawingsPrefixErr(font: LabelFont, bs: seq<FontBaseline>, k: nat)
    requires k <= |bs| && StyledDrawings(font, bs[..k]).Err?
    ensures StyledDrawings(font, bs) == StyledDrawings(font, bs[..k])
    decreases |bs| - k
  {
    if k < |bs| {
      var next := bs[..k + 1];
      assert next[..k] == bs[..k];
      StyledDrawingsPrefixErr(font, bs, k + 1);
    } else {
      assert bs[..k] == bs;
    }
  }

  /** The name table records: "Regular" style, and the identifiers built from the family name. */
  datatype NameTable = NameTable(copyright: string, familyName: string, styleName: string,
                                 uniqueFontIdentifier: string, fullName: string, psName: string, version: string)

  /** An hmtx entry: advance width and left side bearing. */
  datatype HorizontalMetric = HorizontalMetric(advanceWidth: int, leftSideBearing: int)

  /** The values handed to the font builder, table by table. */
  datatype FontTables = FontTables(
    unitsPerEm: int,
    glyphOrder: seq<GlyphName>,
    cmap: map<char, GlyphName>,
    glyf: map<GlyphName, seq<Element>>,
    hmtx: map<GlyphName, HorizontalMetric>,
    names: NameTable,
    os2: map<string, int>,
    hhea: map<string, int>,
    base: BaseTable)

  const NOTDEF: GlyphName := ".notdef"
  const DIAGNOSTIC: GlyphName := "X"
  const STYLE_NAME: string := "Regular"

  function Names(fontName: string): NameTable
  {
    var full := fontName + "-" + STYLE_NAME;
    NameTable("Copyright (c) 2026, Sajid Anwar", fontName, STYLE_NAME, full, full, full, "Version 1.0")
  }

  /** The font assembled from the two glyphs' outlines and the derived table values. */
  function Assemble(fontName: string, notdefGlyph: seq<Element>, diagGlyph: seq<Element>, os2: map<string, int>,
                    hhea: map<string, int>, base: BaseTable): FontTables
  {
    FontTables(
      EM_SIZE,
      [NOTDEF, DIAGNOSTIC],
      map['X' := DIAGNOSTIC],
      map[NOTDEF := notdefGlyph, DIAGNOSTIC := diagGlyph],
      map[NOTDEF := HorizontalMetric(EM_SIZE, 0), DIAGNOSTIC := HorizontalMetric(EM_SIZE, 0)],
      Names(fontName),
      os2, hhea, base)
  }

  /**
   * What `build_baselines_font` hands to the font builder, or the first
   * failure in the order the source meets them: a label lookup while drawing,
   * a nameless OS/2 entry, a nameless hhea entry, then the BASE table.
   */
  function BuildSpec(fontName: string, font: LabelFont, bs: seq<FontBaseline>): Result<FontTables, Failure>
  {
    match StyledDrawings(font, bs)
    case Err(e) => Err(e)
    case Ok(d) =>
      match FieldMap(bs, OS2)
      case Err(e) => Err(e)
      case Ok(os2) =>
        match FieldMap(bs, HHEA)
        case Err(e) => Err(e)
        case Ok(hhea) =>
          match DeriveBase(bs)
          case Err(e) => Err(e)
          case Ok(base) => Ok(Assemble(fontName, EmFrame(), EmFrame() + d, os2, hhea, base))
  }

  /**
   * The build succeeds exactly when every label can be drawn, no OS/2, hhea or
   * BASE entry is nameless and some BASE entry is "romn".
   */
  lemma BuildSucceeds(fontName: string, font: LabelFont, bs: seq<FontBaseline>)
    ensures BuildSpec(fontName, font, bs).Ok? <==>
      && (forall i :: 0 <= i < |bs| ==> EntryDrawing(font, bs[i]).Ok?)
      && (forall i :: 0 <= i < |bs| ==> !IsUnnamed(bs[i], OS2) && !IsUnnamed(bs[i], HHEA) && !IsUnnamed(bs[i], BASE))
      && HasDefaultBaseline(bs)
  {
    StyledDrawingsFails(font, bs);
    FieldMapFails(bs, OS2);
    FieldMapFails(bs, HHEA);
    DeriveBaseFails(bs);
  }

  /**
   * A built font has 1000 units per em, the glyphs .notdef and X in that
   * order, X mapped from 'X', both glyphs 1000 wide and the name records of
   * the family name; .notdef is exactly the em frame and X is the same frame
   * followed by the drawings of exactly the entries that have a style, in
   * list order; the OS/2, hhea and BASE values are the derived ones.
   */
  lemma BuiltFont(fontName: string, font: LabelFont, bs: seq<FontBaseline>)
    requires BuildSpec(fontName, font, bs).Ok?
    ensures var f := BuildSpec(fontName, font, bs).value;
      && f.unitsPerEm == 1000
      && f.glyphOrder == [".notdef", "X"]
      && f.cmap == map['X' := "X"]
      && f.hmtx == map[".notdef" := HorizontalMetric(1000, 0), "X" := HorizontalMetric(1000, 0)]
      && f.names.familyName == fontName && f.names.styleName == "Regular"
      && f.names.fullName == fontName + "-Regular" && f.names.psName == fontName + "-Regular"
      && f.names.uniqueFontIdentifier == fontName + "-Regular"
      && f.names.copyright == "Copyright (c) 2026, Sajid Anwar" && f.names.version == "Version 1.0"
      && f.glyf.Keys == {".notdef", "X"}
      && f.glyf[".notdef"] == Contours(FrameBoxes(0.0, -200.0, 1000.0, 800.0, 12.0))
      && StyledDrawings(font, Styled(bs)).Ok?
      && f.glyf["X"] == f.glyf[".notdef"] + StyledDrawings(font, Styled(bs)).value
      && FieldMap(bs, OS2).Ok? && f.os2 == FieldMap(bs, OS2).value
      && FieldMap(bs, HHEA).Ok? && f.hhea == FieldMap(bs, HHEA).value
      && DeriveBase(bs).Ok? && f.base == DeriveBase(bs).value
  {
    BuildSpecParts(fontName, font, bs);
    var d := StyledDrawings(font, bs).value;
    AssembledFont(fontName, EmFrame(), EmFrame() + d, FieldMap(bs, OS2).value, FieldMap(bs, HHEA).value, DeriveBase(bs).value);
    StyledDrawingsOfStyled(font, bs);
  }

  /** The fixed tables of an assembled font, and where its two glyphs and three metric tables go. */
  lemma AssembledFont(fontName: string, notdefGlyph: seq<Element>, diagGlyph: seq<Element>, os2: map<string, int>,
                      hhea: map<string, int>, base: BaseTable)
    ensures var f := Assemble(fontName, notdefGlyph, diagGlyph, os2, hhea, base);
      && f.unitsPerEm == 1000
      && f.glyphOrder == [".notdef", "X"]
      && f.cmap == map['X' := "X"]
      && f.hmtx == map[".notdef" := HorizontalMetric(1000, 0), "X" := HorizontalMetric(1000, 0)]
      && f.names.familyName == fontName && f.names.styleName == "Regular"
      && f.names.fullName == fontName + "-Regular" && f.names.psName == fontName + "-Regular"
      && f.names.uniqueFontIdentifier == fontName + "-Regular"
      && f.names.copyright == "Copyright (c) 2026, Sajid Anwar" && f.names.version == "Version 1.0"
      && f.glyf.Keys == {".notdef", "X"} && f.glyf[".notdef"] == notdefGlyph && f.glyf["X"] == diagGlyph
      && f.os2 == os2 && f.hhea == hhea && f.base == base
  {
  }

  /** A successful build is the assembly of the drawings and the three derived tables. */
  lemma BuildSpecParts(fontName: string, font: LabelFont, bs: seq<FontBaseline>)
    requires BuildSpec(fontName, font, bs).Ok?
    ensures StyledDrawings(font, bs).Ok? && FieldMap(bs, OS2).Ok? && FieldMap(bs, HHEA).Ok? && DeriveBase(bs).Ok?
    ensures BuildSpec(fontName, font, bs).value
         == Assemble(fontName, EmFrame(), EmFrame() + StyledDrawings(font, bs).value, FieldMap(bs, OS2).value,
                     FieldMap(bs, HHEA).value, DeriveBase(bs).value)
  {
  }

  /**
   * The loop of `build_baselines_font` that draws every styled baseline on
   * the annotated glyph's pen. On a failing label the pen keeps the
   * drawings of the entries before the failing one.
   */
  method DrawBaselines(pen: Pen, font: LabelFont, bs: seq<FontBaseline>) returns (r: Outcome<Failure>)
    requires pen.Ready()
    modifies pen
    ensures pen.Ready()
    ensures match StyledDrawings(font, bs)
      case Ok(d) => r == Pass && pen.elements == old(pen.elements) + d
      case Err(e) =>
        && r == Fail(e)
        && exists k :: 0 <= k < |bs| && StyledDrawings(font, bs[..k]).Ok? && EntryDrawing(font, bs[k]) == Err(e)
                       && pen.elements == old(pen.elements) + StyledDrawings(font, bs[..k]).value
  {
    assert bs[..0] == [];
    assert pen.elements == old(pen.elements) + [];
    var i := 0;
    while i < |bs|
      invariant 0 <= i <= |bs|
      invariant pen.Ready()
      invariant StyledDrawings(font, bs[..i]).Ok?
      invariant pen.elements == old(pen.elements) + StyledDrawings(font, bs[..i]).value
    {
      var b := bs[i];
      assert bs[..i + 1][..i] == bs[..i] && bs[..i + 1][i] == b;
      if b.style.Some? {
        var drawn := DrawBaseline(pen, font, b.position as real, b.labelText,
                                  b.style.value.strokeStyle, b.style.value.strokeWidth as real);
        if drawn.Fail? {
          assert EntryDrawing(font, bs[i]) == Err(drawn.error);
          StyledDrawingsPrefixErr(font, bs, i + 1);
          return drawn;
        }
      }
      i := i + 1;
    }
    assert bs[..|bs|] == bs;
    r := Pass;
  }

  /**
   * The BASE part of `build_baselines_font`: the BASE entries sorted by tag,
   * their coordinates collected in that order, and the index of "romn".
   */
  method BuildBaseTable(bs: seq<FontBaseline>) returns (r: Result<BaseTable, Failure>)
    ensures r == DeriveBase(bs)
  {
    var named := BaseTagEntries(bs);
    if named.Err? {
      return Err(named.error);
    }
    var bases := SortByTag(named.value);
    var baseNames := TagsOf(bases);

    var baseCoords: seq<BaseCoord> := [];
    var k := 0;
    while k < |bases|
      invariant 0 <= k <= |bases|
      invariant |baseCoords| == k
      invariant forall j :: 0 <= j < k ==> baseCoords[j] == BaseCoord(BASE_COORD_FORMAT, bases[j].position)
    {
      baseCoords := baseCoords + [BaseCoord(BASE_COORD_FORMAT, bases[k].position)];
      k := k + 1;
    }
    assert baseCoords == CoordsOf(bases);

    var defaultIndex := IndexOf(baseNames, DEFAULT_BASELINE);
    if defaultIndex.None? {
      return Err(BaselineTagNotFound(DEFAULT_BASELINE));
    }
    r := Ok(BaseTable(BASE_VERSION, baseNames, [BaseScriptRecord(DEFAULT_SCRIPT, defaultIndex.value, baseCoords)]));
  }

  /**
   * `build_baselines_font` up to the point where it hands its values to the
   * font builder: the two glyph pens, the drawing of the baselines, the
   * field maps and the BASE table.
   */
  method BuildBaselinesFont(fontName: string, font: LabelFont, bs: seq<FontBaseline>)
    returns (r: Result<FontTables, Failure>)
    ensures r == BuildSpec(fontName, font, bs)
  {
    var emptyGlyphPen := new Pen();
    DrawBorderedRectangle(emptyGlyphPen, 0.0, -(EM_DESCENT as real), EM_SIZE as real, EM_ASCENT as real, BORDER_WIDTH as real);
    assert emptyGlyphPen.elements == EmFrame();

    var diagGlyphPen := new Pen();
    DrawBorderedRectangle(diagGlyphPen, 0.0, -(EM_DESCENT as real), EM_SIZE as real, EM_ASCENT as real, BORDER_WIDTH as real);
    assert diagGlyphPen.elements == EmFrame();
    var drawn := DrawBaselines(diagGlyphPen, font, bs);
    if drawn.Fail? {
      return Err(drawn.error);
    }

    var os2Values := FieldMap(bs, OS2);
    if os2Values.Err? {
      return Err(os2Values.error);
    }
    var hheaValues := FieldMap(bs, HHEA);
    if hheaValues.Err? {
      return Err(hheaValues.error);
    }
    var baseTable := BuildBaseTable(bs);
    if baseTable.Err? {
      return Err(baseTable.error);
    }
    r := Ok(Assemble(fontName, emptyGlyphPen.elements, diagGlyphPen.elements, os2Values.value, hheaValues.value,
                     baseTable.value));
  }
}
