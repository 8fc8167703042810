/**
 * The two fonts `main()` builds: the baseline lists passed to
 * `build_baselines_font`, and what the metric tables come out as.
 */
module Fonts {
  import opened Wrappers
  import opened Baselines
  import opened Tags
  import opened Tables
  import opened Build
  import opened Text

  function Entry(table: Option<Table>, name: Option<string>, labelText: Option<string>, position: int,
                 style: Option<LineStyle>): FontBaseline
  {
    FontBaseline(table, name, labelText, position, style)
  }

  /** The baselines of "BaselineDiagnostic", top to bottom. */
  const DIAGNOSTIC_BASELINES: seq<FontBaseline> := [
    Entry(Some(OS2),  Some("sTypoAscender"),  None,                      800, None),
    Entry(Some(HHEA), Some("ascent"),         None,                      800, None),
    Entry(Some(BASE), Some("idtp"),           Some("IDEOGRAPHIC-OVER"),  750, Some(SOLID)),
    Entry(Some(BASE), Some("hang"),           Some("HANGING"),           650, Some(SOLID)),
    Entry(Some(OS2),  Some("sCapHeight"),     Some("CAP-HEIGHT"),        550, Some(SOLID)),
    Entry(Some(BASE), Some("math"),           Some("MATH"),              450, Some(SOLID)),
    Entry(None,       None,                   Some("CENTRAL"),           350, Some(SOLID)),
    Entry(None,       None,                   None,                      300, Some(DASHED)),
    Entry(Some(OS2),  Some("sxHeight"),       Some("X-HEIGHT"),          250, Some(SOLID)),
    Entry(None,       None,                   Some("X-MIDDLE"),          150, Some(SOLID)),
    Entry(Some(BASE), Some("romn"),           Some("ALPHABETIC"),         50, Some(SOLID)),
    Entry(None,       None,                   None,                        0, Some(DASHED)),
    Entry(Some(BASE), Some("ideo"),           Some("IDEOGRAPHIC-UNDER"), -50, Some(SOLID)),
    Entry(Some(OS2),  Some("sTypoDescender"), None,                     -200, None),
    Entry(Some(HHEA), Some("descent"),        None,                     -200, None)
  ]

  /** The baselines of "BaselineDiagnosticAlphabeticZero": the alphabetic baseline at 0. */
  const ALPHABETIC_ZERO_BASELINES: seq<FontBaseline> := [
    Entry(Some(OS2),  Some("sTypoAscender"),  None,                      800, None),
    Entry(Some(HHEA), Some("ascent"),         None,                      800, None),
    Entry(Some(BASE), Some("idtp"),           Some("IDEOGRAPHIC-OVER"),  750, Some(SOLID)),
    Entry(Some(BASE), Some("hang"),           Some("HANGING"),           650, Some(SOLID)),
    Entry(Some(OS2),  Some("sCapHeight"),     Some("CAP-HEIGHT"),        550, Some(SOLID)),
    Entry(Some(BASE), Some("math"),           Some("MATH"),              450, Some(SOLID)),
    Entry(None,       None,                   Some("CENTRAL"),           350, Some(SOLID)),
    Entry(None,       None,                   None,                      300, Some(DASHED)),
    Entry(Some(OS2),  Some("sxHeight"),       Some("X-HEIGHT"),          250, Some(SOLID)),
    Entry(None,       None,                   Some("X-MIDDLE"),          125, Some(SOLID)),
    Entry(Some(BASE), Some("romn"),           None,                        0, Some(DASHED)),
    Entry(Some(BASE), Some("ideo"),           Some("IDEOGRAPHIC-UNDER"), -50, Some(SOLID)),
    Entry(Some(OS2),  Some("sTypoDescender"), None,                     -200, None),
    Entry(Some(HHEA), Some("descent"),        None,                     -200, None)
  ]

  /**
   * The variant differs from the first list in exactly three places: x-middle
   * moves from 150 to 125, the alphabetic ("romn") entry loses its label and
   * becomes a dashed line at 0, and the separate dashed line at 0 is gone.
   */
  lemma AlphabeticZeroVariant()
    ensures var d := DIAGNOSTIC_BASELINES;
      ALPHABETIC_ZERO_BASELINES
      == d[..9] + [d[9].(position := 125), d[10].(labelText := None, position := 0, style := Some(DASHED))] + d[12..]
  {
  }

  /** Every baseline of both fonts lies within the em box, from -200 to 800. */
  lemma PositionsInEmBox()
    ensures forall b :: b in DIAGNOSTIC_BASELINES ==> -EM_DESCENT <= b.position <= EM_ASCENT
    ensures forall b :: b in ALPHABETIC_ZERO_BASELINES ==> -EM_DESCENT <= b.position <= EM_ASCENT
  {
  }

  /** Each list has exactly one BASE entry named "romn", so the default index lookup succeeds. */
  lemma OneDefaultBaseline()
    ensures forall i :: 0 <= i < |DIAGNOSTIC_BASELINES| ==> (IsEntry(DIAGNOSTIC_BASELINES[i], BASE, "romn") <==> i == 10)
    ensures forall i :: 0 <= i < |ALPHABETIC_ZERO_BASELINES| ==> (IsEntry(ALPHABETIC_ZERO_BASELINES[i], BASE, "romn") <==> i == 10)
    ensures HasDefaultBaseline(DIAGNOSTIC_BASELINES) && HasDefaultBaseline(ALPHABETIC_ZERO_BASELINES)
  {
    assert IsEntry(DIAGNOSTIC_BASELINES[10], BASE, DEFAULT_BASELINE);
    assert IsEntry(ALPHABETIC_ZERO_BASELINES[10], BASE, DEFAULT_BASELINE);
  }

  const OS2_VALUES: map<string, int> :=
    map["sTypoAscender" := 800, "sCapHeight" := 550, "sxHeight" := 250, "sTypoDescender" := -200]
  const HHEA_VALUES: map<string, int> := map["ascent" := 800, "descent" := -200]

  /** Both fonts get the same OS/2 and hhea values. */
  lemma MetricFields()
    ensures FieldMap(DIAGNOSTIC_BASELINES, OS2) == Ok(OS2_VALUES)
    ensures FieldMap(DIAGNOSTIC_BASELINES, HHEA) == Ok(HHEA_VALUES)
    ensures FieldMap(ALPHABETIC_ZERO_BASELINES, OS2) == Ok(OS2_VALUES)
    ensures FieldMap(ALPHABETIC_ZERO_BASELINES, HHEA) == Ok(HHEA_VALUES)
  {
    Os2Fields(DIAGNOSTIC_BASELINES);
    Os2Fields(ALPHABETIC_ZERO_BASELINES);
    HheaFields(DIAGNOSTIC_BASELINES);
    HheaFields(ALPHABETIC_ZERO_BASELINES);
  }

  lemma Os2Fields(bs: seq<FontBaseline>)
    requires bs == DIAGNOSTIC_BASELINES || bs == ALPHABETIC_ZERO_BASELINES
    ensures FieldMap(bs, OS2) == Ok(OS2_VALUES)
  {
    assert IsEntry(bs[0], OS2, "sTypoAscender") && IsEntry(bs[4], OS2, "sCapHeight");
    assert IsEntry(bs[8], OS2, "sxHeight") && IsEntry(bs[|bs| - 2], OS2, "sTypoDescender");
    FieldMapOfUniqueNames(bs, OS2, OS2_VALUES);
  }

  lemma HheaFields(bs: seq<FontBaseline>)
    requires bs == DIAGNOSTIC_BASELINES || bs == ALPHABETIC_ZERO_BASELINES
    ensures FieldMap(bs, HHEA) == Ok(HHEA_VALUES)
  {
    assert IsEntry(bs[1], HHEA, "ascent") && IsEntry(bs[|bs| - 1], HHEA, "descent");
    FieldMapOfUniqueNames(bs, HHEA, HHEA_VALUES);
  }

  /** BaseTagEntries on the first k entries, from the first k - 1. */
  lemma BaseTagEntriesStep(bs: seq<FontBaseline>, k: nat, init: seq<TagEntry>)
    requires 0 < k <= |bs| && BaseTagEntries(bs[..k - 1]) == Ok(init)
    requires bs[k - 1].table == Some(BASE) ==> bs[k - 1].name.Some?
    ensures BaseTagEntries(bs[..k]) ==
      Ok(if bs[k - 1].table == Some(BASE) then init + [TagEntry(bs[k - 1].name.value, bs[k - 1].position)] else init)
  {
    assert bs[..k][..k - 1] == bs[..k - 1];
  }

  /** Entries outside the BASE table leave the BASE entries as they are. */
  lemma {:induction false} BaseTagEntriesSkip(bs: seq<FontBaseline>, k: nat, j: nat)
    requires k <= j <= |bs| && forall i :: k <= i < j ==> bs[i].table != Some(BASE)
    ensures BaseTagEntries(bs[..j]) == BaseTagEntries(bs[..k])
    decreases j - k
  {
    if k < j {
      BaseTagEntriesSkip(bs, k, j - 1);
      assert bs[..j][..j - 1] == bs[..j - 1];
    }
  }

  /** Entry b is the BASE entry (tag, position). */
  predicate BaseAt(b: FontBaseline, tag: string, position: int)
  {
    b.table == Some(BASE) && b.name == Some(tag) && b.position == position
  }

  /** The first four entries of both lists: two metric entries, then idtp and hang. */
  lemma FirstBaseEntries(bs: seq<FontBaseline>)
    requires |bs| >= 4 && bs[0].table != Some(BASE) && bs[1].table != Some(BASE)
    requires BaseAt(bs[2], "idtp", 750) && BaseAt(bs[3], "hang", 650)
    ensures BaseTagEntries(bs[..4]) == Ok([TagEntry("idtp", 750), TagEntry("hang", 650)])
  {
    assert bs[..0] == [];
    BaseTagEntriesSkip(bs, 0, 2);
    BaseTagEntriesStep(bs, 3, []);
    assert [] + [TagEntry("idtp", 750)] == [TagEntry("idtp", 750)];
    BaseTagEntriesStep(bs, 4, [TagEntry("idtp", 750)]);
    assert [TagEntry("idtp", 750)] + [TagEntry("hang", 650)] == [TagEntry("idtp", 750), TagEntry("hang", 650)];
  }

  /** Entries 4 to 9 of both lists add only math. */
  lemma MiddleBaseEntries(bs: seq<FontBaseline>)
    requires |bs| >= 10 && BaseTagEntries(bs[..4]) == Ok([TagEntry("idtp", 750), TagEntry("hang", 650)])
    requires bs[4].table != Some(BASE) && BaseAt(bs[5], "math", 450)
    requires forall i :: 6 <= i < 10 ==> bs[i].table != Some(BASE)
    ensures BaseTagEntries(bs[..10]) == Ok([TagEntry("idtp", 750), TagEntry("hang", 650), TagEntry("math", 450)])
  {
    BaseTagEntriesSkip(bs, 4, 5);
    BaseTagEntriesStep(bs, 6, [TagEntry("idtp", 750), TagEntry("hang", 650)]);
    assert [TagEntry("idtp", 750), TagEntry("hang", 650)] + [TagEntry("math", 450)]
        == [TagEntry("idtp", 750), TagEntry("hang", 650), TagEntry("math", 450)];
    BaseTagEntriesSkip(bs, 6, 10);
  }

  /** From entry 10 on: romn at the given position, ideo at -50 after `gap` other entries, then only metric entries. */
  lemma LastBaseEntries(bs: seq<FontBaseline>, romn: int, gap: nat)
    requires gap <= 1 && |bs| >= 12 + gap
    requires BaseTagEntries(bs[..10]) == Ok([TagEntry("idtp", 750), TagEntry("hang", 650), TagEntry("math", 450)])
    requires BaseAt(bs[10], "romn", romn) && BaseAt(bs[11 + gap], "ideo", -50)
    requires forall i :: 11 <= i < |bs| && i != 11 + gap ==> bs[i].table != Some(BASE)
    ensures BaseTagEntries(bs) == Ok([TagEntry("idtp", 750), TagEntry("hang", 650),
      TagEntry("math", 450), TagEntry("romn", romn), TagEntry("ideo", -50)])
  {
    var three := [TagEntry("idtp", 750), TagEntry("hang", 650), TagEntry("math", 450)];
    BaseTagEntriesStep(bs, 11, three);
    assert three + [TagEntry("romn", romn)] == three + [TagEntry("romn", romn)];
    BaseTagEntriesSkip(bs, 11, 11 + gap);
    BaseTagEntriesStep(bs, 12 + gap, three + [TagEntry("romn", romn)]);
    assert three + [TagEntry("romn", romn)] + [TagEntry("ideo", -50)]
        == [TagEntry("idtp", 750), TagEntry("hang", 650), TagEntry("math", 450), TagEntry("romn", romn), TagEntry("ideo", -50)];
    BaseTagEntriesSkip(bs, 12 + gap, |bs|);
    assert bs[..|bs|] == bs;
  }

  /** The BASE entries of "BaselineDiagnostic", in list order. */
  lemma DiagnosticBaseEntries()
    ensures BaseTagEntries(DIAGNOSTIC_BASELINES) == Ok([TagEntry("idtp", 750), TagEntry("hang", 650),
      TagEntry("math", 450), TagEntry("romn", 50), TagEntry("ideo", -50)])
  {
    var bs := DIAGNOSTIC_BASELINES;
    FirstBaseEntries(bs);
    MiddleBaseEntries(bs);
    LastBaseEntries(bs, 50, 1);
  }

  /** The BASE entries of "BaselineDiagnosticAlphabeticZero", in list order. */
  lemma AlphabeticZeroBaseEntries()
    ensures BaseTagEntries(ALPHABETIC_ZERO_BASELINES) == Ok([TagEntry("idtp", 750), TagEntry("hang", 650),
      TagEntry("math", 450), TagEntry("romn", 0), TagEntry("ideo", -50)])
  {
    var bs := ALPHABETIC_ZERO_BASELINES;
    FirstBaseEntries(bs);
    MiddleBaseEntries(bs);
    LastBaseEntries(bs, 0, 0);
  }

  /** The five BASE tags in list order sort to hang, ideo, idtp, math, romn. */
  lemma SortBaseTags(romn: int)
    ensures SortByTag([TagEntry("idtp", 750), TagEntry("hang", 650), TagEntry("math", 450),
                       TagEntry("romn", romn), TagEntry("ideo", -50)])
         == [TagEntry("hang", 650), TagEntry("ideo", -50), TagEntry("idtp", 750),
             TagEntry("math", 450), TagEntry("romn", romn)]
  {
    var idtp, hang, math, rm, ideo := TagEntry("idtp", 750), TagEntry("hang", 650), TagEntry("math", 450),
                                      TagEntry("romn", romn), TagEntry("ideo", -50);
    var s := [idtp, hang, math, rm, ideo];
    assert s[1..] == [hang, math, rm, ideo] && s[1..][1..] == [math, rm, ideo];
    assert s[1..][1..][1..] == [rm, ideo] && s[1..][1..][1..][1..] == [ideo];
    assert SortByTag([ideo]) == [ideo] by {
      assert [ideo][1..] == [];
    }
    assert SortByTag([rm, ideo]) == [ideo, rm] by {
      assert [rm, ideo][1..] == [ideo];
      assert !LexLe("romn", "ideo");
      assert Insert(rm, [ideo]) == [ideo] + Insert(rm, []);
    }
    assert SortByTag([math, rm, ideo]) == [ideo, math, rm] by {
      assert [math, rm, ideo][1..] == [rm, ideo];
      assert !LexLe("math", "ideo") && LexLe("math", "romn");
      assert [ideo, rm][1..] == [rm];
      assert Insert(math, [ideo, rm]) == [ideo] + Insert(math, [rm]);
    }
    assert SortByTag([hang, math, rm, ideo]) == [hang, ideo, math, rm] by {
      assert [hang, math, rm, ideo][1..] == [math, rm, ideo];
      assert LexLe("hang", "ideo");
    }
    assert !LexLe("idtp", "ideo") by {
      assert "idtp"[1..] == "dtp" && "ideo"[1..] == "deo";
      assert "dtp"[1..] == "tp" && "deo"[1..] == "eo";
      assert !LexLe("tp", "eo");
    }
    assert LexLe("idtp", "math");
    assert [hang, ideo, math, rm][1..] == [ideo, math, rm];
    assert [ideo, math, rm][1..] == [math, rm];
    assert Insert(idtp, [math, rm]) == [idtp, math, rm];
    assert Insert(idtp, [ideo, math, rm]) == [ideo] + [idtp, math, rm];
    assert Insert(idtp, [hang, ideo, math, rm]) == [hang] + [ideo, idtp, math, rm];
  }

  /** The BASE table both fonts get, with the alphabetic baseline at `romn`. */
  function ExpectedBase(romn: int): BaseTable
  {
    BaseTable(0x00010000, ["hang", "ideo", "idtp", "math", "romn"],
      [BaseScriptRecord("DFLT", 4, [BaseCoord(1, 650), BaseCoord(1, -50), BaseCoord(1, 750), BaseCoord(1, 450), BaseCoord(1, romn)])])
  }

  lemma BaseTableOfSorted(romn: int)
    ensures BaseTableOf([TagEntry("hang", 650), TagEntry("ideo", -50), TagEntry("idtp", 750),
                         TagEntry("math", 450), TagEntry("romn", romn)]) == Ok(ExpectedBase(romn))
  {
    var sorted := [TagEntry("hang", 650), TagEntry("ideo", -50), TagEntry("idtp", 750),
                   TagEntry("math", 450), TagEntry("romn", romn)];
    var tags := TagsOf(sorted);
    assert tags == ["hang", "ideo", "idtp", "math", "romn"];
    var i := IndexOf(tags, "romn");
    assert tags[4] == "romn";
    assert tags[0] != "romn" && tags[1] != "romn" && tags[2] != "romn" && tags[3] != "romn";
    assert i == Some(4);
    assert CoordsOf(sorted) == [BaseCoord(1, 650), BaseCoord(1, -50), BaseCoord(1, 750), BaseCoord(1, 450), BaseCoord(1, romn)];
  }

  /**
   * The BASE tags of both fonts sort to hang, ideo, idtp, math, romn with
   * coordinates 650, -50, 750, 450 and the alphabetic baseline (50, or 0 in
   * the variant), and the default baseline is index 4, "romn".
   */
  lemma BaseTables()
    ensures DeriveBase(DIAGNOSTIC_BASELINES) == Ok(ExpectedBase(50))
    ensures DeriveBase(ALPHABETIC_ZERO_BASELINES) == Ok(ExpectedBase(0))
  {
    DiagnosticBaseEntries();
    AlphabeticZeroBaseEntries();
    SortBaseTags(50);
    SortBaseTags(0);
    BaseTableOfSorted(50);
    BaseTableOfSorted(0);
  }

  /** A row of the baseline table in the README `main()` writes: name, coordinate and the table fields naming it. */
  datatype ReadmeRow = ReadmeRow(metric: string, coordinate: Option<int>, baseTag: Option<string>,
                                 os2Field: Option<string>, hheaField: Option<string>)

  const README_ROWS: seq<ReadmeRow> := [
    ReadmeRow("ascent",            Some(800),  None,         Some("sTypoAscender"),  Some("ascent")),
    ReadmeRow("ideographic-over",  Some(750),  Some("idtp"), None,                   None),
    ReadmeRow("hanging",           Some(650),  Some("hang"), None,                   None),
    ReadmeRow("cap-height",        Some(550),  None,         Some("sCapHeight"),     None),
    ReadmeRow("math",              Some(450),  Some("math"), None,                   None),
    ReadmeRow("/central/",         Some(350),  None,         None,                   None),
    ReadmeRow("/em-middle/",       Some(300),  None,         None,                   None),
    ReadmeRow("x-height",          Some(250),  None,         Some("sxHeight"),       None),
    ReadmeRow("/x-middle/",        Some(150),  None,         None,                   None),
    ReadmeRow("alphabetic",        Some(50),   Some("romn"), None,                   None),
    ReadmeRow("/zero/",            None,       None,         None,                   None),
    ReadmeRow("ideographic-under", Some(-50),  Some("ideo"), None,                   None),
    ReadmeRow("descent",           Some(-200), None,         Some("sTypoDescender"), Some("descent"))
  ]

  /** The field a README row names in table t's column. */
  function RowField(r: ReadmeRow, t: Table): Option<string>
  {
    match t
    case BASE => r.baseTag
    case OS2 => r.os2Field
    case HHEA => r.hheaField
  }

  /** The list entry a README row describes; the hhea fields sit on the entry after the OS/2 one. */
  function RowEntry(k: nat, t: Table): nat
  {
    (if k == 0 then 0 else k + 1) + (if t == HHEA && (k == 0 || k == 12) then 1 else 0)
  }

  /** The README row describing list entry i. */
  function EntryRow(i: nat): nat
  {
    if i <= 1 then 0 else if i == 14 then 12 else i - 1
  }

  /**
   * Every README row with a coordinate is a position of the first list, and
   * every field a column names is an entry of that table at the row's
   * coordinate.
   */
  lemma ReadmeRowsListed()
    ensures forall k :: 0 <= k < |README_ROWS| && README_ROWS[k].coordinate.Some? ==>
      exists i :: 0 <= i < |DIAGNOSTIC_BASELINES| && DIAGNOSTIC_BASELINES[i].position == README_ROWS[k].coordinate.value
    ensures forall k, t :: 0 <= k < |README_ROWS| && RowField(README_ROWS[k], t).Some? ==>
      README_ROWS[k].coordinate.Some? &&
      exists i :: 0 <= i < |DIAGNOSTIC_BASELINES| && IsEntry(DIAGNOSTIC_BASELINES[i], t, RowField(README_ROWS[k], t).value)
        && DIAGNOSTIC_BASELINES[i].position == README_ROWS[k].coordinate.value
  {
    forall k | 0 <= k < |README_ROWS| && README_ROWS[k].coordinate.Some?
      ensures exists i :: 0 <= i < |DIAGNOSTIC_BASELINES| && DIAGNOSTIC_BASELINES[i].position == README_ROWS[k].coordinate.value
    {
      var i := RowEntry(k, BASE);
      assert DIAGNOSTIC_BASELINES[i].position == README_ROWS[k].coordinate.value;
    }
    forall k, t | 0 <= k < |README_ROWS| && RowField(README_ROWS[k], t).Some?
      ensures README_ROWS[k].coordinate.Some? &&
        exists i :: 0 <= i < |DIAGNOSTIC_BASELINES| && IsEntry(DIAGNOSTIC_BASELINES[i], t, RowField(README_ROWS[k], t).value)
          && DIAGNOSTIC_BASELINES[i].position == README_ROWS[k].coordinate.value
    {
      var i := RowEntry(k, t);
      assert IsEntry(DIAGNOSTIC_BASELINES[i], t, RowField(README_ROWS[k], t).value);
    }
  }

  /** The README row k describes entry b: its coordinate and, in b's table column, b's name. */
  predicate RowDescribes(k: nat, b: FontBaseline)
    requires k < |README_ROWS|
  {
    && (README_ROWS[k].coordinate == Some(b.position) || (README_ROWS[k].coordinate == None && b.position == 0))
    && (b.table.Some? ==> RowField(README_ROWS[k], b.table.value) == b.name)
  }

  /** Some README row describes b. */
  predicate ListedAt(b: FontBaseline)
  {
    exists k :: 0 <= k < |README_ROWS| && RowDescribes(k, b)
  }

  /**
   * Every entry of the first list has a README row: at its coordinate (the
   * entry at 0 on the /zero/ row, which gives none), and naming the entry's
   * field in its table's column.
   */
  lemma ListedInReadme()
    ensures forall i :: 0 <= i < |DIAGNOSTIC_BASELINES| ==> ListedAt(DIAGNOSTIC_BASELINES[i])
  {
    forall i | 0 <= i < |DIAGNOSTIC_BASELINES|
      ensures ListedAt(DIAGNOSTIC_BASELINES[i])
    {
      var b, k := DIAGNOSTIC_BASELINES[i], EntryRow(i);
      assert RowDescribes(k, b);
    }
  }

  /** Every character of every drawn label is in the label font's character map. */
  predicate LabelsMapped(font: LabelFont, bs: seq<FontBaseline>)
  {
    forall i :: 0 <= i < |bs| && bs[i].style.Some? && bs[i].labelText.Some? ==>
      forall j :: 0 <= j < |bs[i].labelText.value| ==> Mapped(font, bs[i].labelText.value[j])
  }

  /** No entry of either list names a table without naming a field. */
  lemma AllNamed(bs: seq<FontBaseline>)
    requires bs == DIAGNOSTIC_BASELINES || bs == ALPHABETIC_ZERO_BASELINES
    ensures forall i :: 0 <= i < |bs| ==> !IsUnnamed(bs[i], OS2) && !IsUnnamed(bs[i], HHEA) && !IsUnnamed(bs[i], BASE)
  {
  }

  /** Each list's drawings succeed exactly when its labels are mapped. */
  lemma DrawingsSucceed(font: LabelFont, bs: seq<FontBaseline>)
    ensures (forall i :: 0 <= i < |bs| ==> EntryDrawing(font, bs[i]).Ok?) <==> LabelsMapped(font, bs)
  {
    forall i | 0 <= i < |bs| && bs[i].style.Some?
      ensures EntryDrawing(font, bs[i]).Ok? <==> (bs[i].labelText.Some? ==>
        forall j :: 0 <= j < |bs[i].labelText.value| ==> Mapped(font, bs[i].labelText.value[j]))
    {
      var s := bs[i].style.value;
      BaselineFails(font, bs[i].position as real, bs[i].labelText, s.strokeStyle, s.strokeWidth as real);
    }
  }

  /**
   * The two fonts `main()` builds: each build succeeds exactly when the label
   * font maps every label character, and then gives the OS/2 and hhea maps
   * and the BASE table worked out above (romn at 50, and at 0 in the variant).
   */
  lemma MainFonts(font: LabelFont)
    ensures BuildSpec("BaselineDiagnostic", font, DIAGNOSTIC_BASELINES).Ok? <==> LabelsMapped(font, DIAGNOSTIC_BASELINES)
    ensures BuildSpec("BaselineDiagnostic", font, DIAGNOSTIC_BASELINES).Ok? ==>
      var f := BuildSpec("BaselineDiagnostic", font, DIAGNOSTIC_BASELINES).value;
      f.os2 == OS2_VALUES && f.hhea == HHEA_VALUES && f.base == ExpectedBase(50)
    ensures BuildSpec("BaselineDiagnosticAlphabeticZero", font, ALPHABETIC_ZERO_BASELINES).Ok?
        <==> LabelsMapped(font, ALPHABETIC_ZERO_BASELINES)
    ensures BuildSpec("BaselineDiagnosticAlphabeticZero", font, ALPHABETIC_ZERO_BASELINES).Ok? ==>
      var f := BuildSpec("BaselineDiagnosticAlphabeticZero", font, ALPHABETIC_ZERO_BASELINES).value;
      f.os2 == OS2_VALUES && f.hhea == HHEA_VALUES && f.base == ExpectedBase(0)
  {
    MetricFields();
    BaseTables();
    OneDefaultBaseline();
    AllNamed(DIAGNOSTIC_BASELINES);
    AllNamed(ALPHABETIC_ZERO_BASELINES);
    DrawingsSucceed(font, DIAGNOSTIC_BASELINES);
    DrawingsSucceed(font, ALPHABETIC_ZERO_BASELINES);
    BuildSucceeds("BaselineDiagnostic", font, DIAGNOSTIC_BASELINES);
    BuildSucceeds("BaselineDiagnosticAlphabeticZero", font, ALPHABETIC_ZERO_BASELINES);
    if BuildSpec("BaselineDiagnostic", font, DIAGNOSTIC_BASELINES).Ok? {
      BuiltFont("BaselineDiagnostic", font, DIAGNOSTIC_BASELINES);
    }
    if BuildSpec("BaselineDiagnosticAlphabeticZero", font, ALPHABETIC_ZERO_BASELINES).Ok? {
      BuiltFont("BaselineDiagnosticAlphabeticZero", font, ALPHABETIC_ZERO_BASELINES);
    }
  }
}
