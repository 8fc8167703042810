# Baseline diagnostic font — a Dafny model

The repository builds two small TrueType fonts, "BaselineDiagnostic" and
"BaselineDiagnosticAlphabeticZero". Each has one visible glyph, "X". It
draws every baseline of a list that has a line style as a horizontal line
across the em box. When the baseline has a label, the line is broken around
the label's text. Entries without a style are not drawn; they only feed the
metric tables. Alongside the glyph, each font carries OS/2, hhea and BASE
values taken from the same list.

This project models that core:

- The recording pen (`Pens.Pen`). This is a class whose elements the
  drawing methods append to. An element is a closed polygon contour, or a
  label-font glyph drawn through an affine transform; the glyph's outline
  data is opaque.
- The geometry primitives (`Shapes`):
  - rectangles;
  - the four-strip bordered frame;
  - solid and dashed strokes;
  - the style dispatch of `draw_line`.
- Text measuring and centred label layout (`Text`). `TextMetrics.width`,
  `measure_text` and `draw_text_centered` work over an abstract label font:
  its units per em, its character map and its advance widths.
- `draw_baseline` (`Baselines`).
- The derivation in `build_baselines_font` (`Tables`, `Tags`, `Build`):
  - the `.notdef` and "X" glyphs;
  - the OS/2 and hhea field maps;
  - the BASE table, which has a stable tag sort, Format 1 coordinates, one
    "DFLT" script and the index of "romn" as its default.
- The two baseline lists `main()` passes, as constants (`Fonts`), with
  concrete facts about the fonts built from them.

Each font.py routine that draws onto a pen or collects values step by step
is a method. The ones with a loop in the source carry loop invariants. Each
of the methods below is proved equal to a pure specification function:

| method | specification function |
|---|---|
| `DrawDashedLine` | `Contours(DashBoxes(...))`, the dashed case of `LineElements` |
| `DrawGlyphs` | `GlyphElements` |
| `MeasureText` | `Measure` |
| `DrawTextCentered` | `CenteredText` |
| `DrawBaseline` | `BaselineElements` |
| `DrawBaselines` | `StyledDrawings` |
| `BuildBaseTable` | `DeriveBase` |
| `BuildBaselinesFont` | `BuildSpec` |

The pure functions that model source expressions directly, described by the
lemma rows of "## Model":

| function | source |
|---|---|
| `Text.Width` | font.py:63-68, `TextMetrics.width` |
| `Text.Measure` | font.py:71-85, `measure_text` |
| `Tables.FieldMap` | font.py:206-207, the OS/2 and hhea dicts |
| `Tables.BaseTagEntries` | font.py:226, the BASE filter |
| `Tags.SortByTag`, `Tags.LexLe` | font.py:226, `sorted` by tag with string `<` |
| `Tables.DeriveBase` | font.py:226-249, the BASE table |
| `Build.EntryDrawing` | font.py:188-196, one entry of the drawing loop |
| `Build.StyledDrawings` | font.py:187-196, the drawing loop |
| `Build.BuildSpec` | font.py:180-249, `build_baselines_font` |

`DrawRectangle`, `DrawBorderedRectangle`, `DrawSolidLine` and `DrawLine` have
no loop, here or in the source. Each states the exact contours it appends.

Lemmas then state what the source promises about those functions.

Numbers and errors:

- Python floats are exact reals.
- Positions and stroke widths are integers.
- Python's `round` (half to even) is written out as `Shapes.RoundHalfEven`.

Python's exceptions become `Err` values of `Wrappers.Failure`:

- `GlyphNotFound` is the `KeyError` when a label character is not in the
  label font.
- `UnnamedTableEntry` is an entry destined for a table that carries no name.
- `BaselineTagNotFound` is the `ValueError` from `list.index("romn")`.

The baseline record follows the argument order the two lists in main.py use:
table, name, label, position, style. The `FontBaseline` dataclass
(font.py:27-34) instead declares six fields: `id, position, table, name,
label, style`. As written, the five positional arguments at main.py:9-23
and main.py:34-47 would not construct that dataclass; Python would raise a
`TypeError` for the missing `style`. The model keeps the fields that
`build_baselines_font` and `draw_baseline` read, in main.py's order, and
drops `id`, which nothing reads.

Behaviour worth knowing, all taken from the code:

- A dashed line's last dash is not clipped. An unlabelled dashed baseline
  has 55 dashes starting at 12, 30, …, 984; the last one runs on to 996,
  past the line's end at 988.
- A line style other than "solid" or "dashed" draws nothing.
- The label's rectangle does not depend on the vertical offset. The offset
  moves only the glyphs.

## Model

| member | source | states |
|---|---|---|
| Pens.Pen.constructor | font.py:181 | A fresh pen has recorded nothing and has no open contour. |
| Pens.Pen.MoveTo | font.py:117 | Opens a contour at the point and leaves the recorded elements unchanged. |
| Pens.Pen.LineTo | font.py:118-120 | Appends the point to the open contour and leaves the recorded elements unchanged. |
| Pens.Pen.ClosePath | font.py:121 | Records the open contour, with its points in order, after the earlier elements, and leaves no contour open. |
| Pens.Pen.DrawGlyph | font.py:99-110 | Records exactly one placed glyph, with its transform, after the earlier elements. |
| Shapes.DrawRectangle | font.py:116-121 | Appends exactly one closed contour (x1,y1),(x2,y1),(x2,y2),(x1,y2) and keeps every earlier element. |
| Shapes.DrawBorderedRectangle | font.py:124-129 | Appends exactly four rectangles, in this order: bottom strip, top strip, left strip, right strip. |
| Shapes.FrameTiling | font.py:124-129 | When 2s fits both sides, a point is in some strip iff it is in the box and outside the open inner box; no two strips share an interior point. |
| Shapes.DrawSolidLine | font.py:137-138 | Appends exactly the rectangle [start,end] × [y−w/2, y+w/2]. |
| Shapes.RoundHalfEven | font.py:133 | The result is within 1/2 of its argument, and it is even on a tie. |
| Shapes.RoundHalfEvenUnique | font.py:133 | Those two properties determine the rounded value. |
| Shapes.DashLayout | font.py:132-134 | Dash k spans [x+18k, x+18k+12]. Every dash starts before the rounded end, and the next start would not. The count is max(0, ⌈(stop−x)/18⌉), and the last dash is unclipped. |
| Shapes.DrawDashedLine | font.py:132-134 | Appends exactly the dashes from round(start) to round(end), in order. |
| Shapes.DrawLine | font.py:141-145 | Appends a solid line for "solid" and dashes for "dashed"; for any other style it appends nothing. |
| Text.WidthIsAdvanceLessGap | font.py:63-68 | For n > 0 glyphs, the width (sum of advances plus gap·(n−1)) equals the cursor's total advance Σ(w_j+gap) less one gap. |
| Text.MeasureGlyphs | font.py:76-83 | Succeeds iff every character is mapped. It then gives one glyph per character, in order, with advance/unitsPerEm; otherwise it fails with the first unmapped character. |
| Text.MeasureFailsAt | font.py:77-78 | The failure is the KeyError of the first unmapped character. |
| Text.MeasureText | font.py:71-85 | The loop returns the measurement: the glyphs, scale 1/unitsPerEm and the letter gap, or the lookup failure. |
| Text.MeasuredGlyphs | font.py:71-85 | A measurement has one glyph per character, the glyph the cmap names, scale 1/unitsPerEm and the given gap. |
| Text.CenteredRectIsCentred | font.py:92-96 | The rectangle is fontSize·width by fontSize·scaleY, and its centre is (x, y). |
| Text.GlyphPlacement | font.py:98-111 | Glyph i is drawn with x-translation xPos + fontSize·Σ_{j<i}(w_j+gap). |
| Text.LayoutGeometry | font.py:92-113 | The centred box has these dimensions and centre. Glyph i is at rect.x + fontSize·Σ_{j<i}(w_j+gap), shifted by −height·offsetY. The cursor ends one scaled gap past the box's right edge. |
| Text.CenteredRectIgnoresOffset | font.py:107-113 | The returned rectangle, and whether layout succeeds, do not depend on offsetY. |
| Text.DrawGlyphs | font.py:98-111 | The glyph loop appends exactly the placed glyphs of the layout, in order. |
| Text.DrawTextCentered | font.py:88-113 | On success it returns the centred rectangle and appends the laid-out glyphs. On a lookup failure it returns the failure and leaves the pen unchanged. |
| Baselines.BaselineFails | font.py:148-152 | A baseline fails iff it has a non-empty label with a character the label font cannot draw. |
| Baselines.LabelledBaseline | font.py:149-168 | The label box is 50 high and 50·width wide, centred on (500, y). Exactly two segments follow, [12, rect.x−12] and [rect.x+rect.width+12, 988], and they have the same length. |
| Baselines.UnlabelledBaseline | font.py:169-177 | Without a label, solid is the single box [12,988] × [y−w/2, y+w/2]. Dashed is 55 dashes at 12+18k. Any other style draws nothing. |
| Baselines.DrawBaseline | font.py:148-177 | Appends exactly the baseline's elements. On a label failure it returns the failure and leaves the pen unchanged. |
| Tags.SortByTagSorted | font.py:226 | The sorted BASE entries are ascending by tag in code-point order. |
| Tags.SortByTagPermutes | font.py:226 | The sorted entries are a permutation of the BASE entries. |
| Tags.SortByTagStable | font.py:226 | The sort is stable: entries with equal tags keep their list order. |
| Tags.SortedUnique | font.py:226 | Two ascending sequences with the same entries per tag, in the same order, are equal, so the sort result is unique. |
| Tags.IndexOf | font.py:247 | Gives Some iff the element occurs; it is then the first index holding it. |
| Tables.FieldMapFails | font.py:206-207 | The OS/2 or hhea map fails iff an entry of that table is nameless, and names the table. |
| Tables.FieldMapContents | font.py:206-207 | The keys are exactly the names of the table's entries. Each maps to the position of the last entry with that name, so later duplicates override. |
| Tables.FieldMapOfUniqueNames | font.py:206-207 | When every entry of the table agrees with a map m that has no other keys, the field map is exactly m. |
| Tables.BaseTagEntriesContents | font.py:226 | Fails iff a BASE entry is nameless. Otherwise entry j is the (name, position) of the j-th BASE entry of the list: the indices are strictly increasing and cover every BASE entry, so each appears once, in list order. Together with DeriveBaseShape, the tags are the BASE entries sorted stably relative to list order. |
| Tables.BaseIndicesInOrder | font.py:226 | BaseIndices lists, strictly ascending, exactly the indices of the BASE entries. |
| Tables.BaseTagEntriesInOrder | font.py:226 | When no BASE entry is nameless, entry j is the (name, position) of the entry at BaseIndices index j. |
| Tables.DeriveBaseFails | font.py:226-247 | Deriving BASE fails iff a BASE entry is nameless or no BASE entry is named "romn". |
| Tables.DeriveBaseShape | font.py:226-249 | A derived BASE table has: version 0x00010000; tags that are a sorted, stable permutation of the BASE entries; one "DFLT" script; DefaultIndex equal to the first index of "romn". Tag i (base_names, font.py:227) and Format 1 coordinate i (font.py:236-241) both come from sorted entry i. |
| Build.Styled | font.py:188 | The entries kept are exactly those with a style. |
| Build.StyledDrawingsOfStyled | font.py:187-196 | Only styled entries draw: the drawings equal those of the styled entries alone, in list order. |
| Build.StyledDrawingsFails | font.py:187-196 | Drawing fails iff some entry's baseline fails, and then with the first failing entry's error. |
| Build.DrawBaselines | font.py:187-196 | The loop appends every entry's drawing, in order. On a failure there is an index k whose entry's drawing fails with that error. The pen then holds exactly the drawings of the entries before k. |
| Build.BuildBaseTable | font.py:226-249 | The sort, the coordinate loop and the "romn" lookup compute the derived BASE table or its failure. |
| Build.BuildSucceeds | font.py:180-249 | The build succeeds iff every styled label can be drawn, no OS/2, hhea or BASE entry is nameless, and some BASE entry is "romn". |
| Build.BuiltFont | font.py:180-223 | A built font has units per em 1000, glyph order [.notdef, X], cmap X→X and advances 1000. Its name records are the copyright "Copyright (c) 2026, Sajid Anwar", the family name, style "Regular", the full, PostScript and unique names fontName-Regular, and "Version 1.0". .notdef is the frame (0,−200,1000,800,12). X is the same frame followed by the styled entries' drawings in list order. It also carries the OS/2, hhea and BASE values. |
| Build.AssembledFont | font.py:198-223 | The values handed to the builder: the fixed glyph order, cmap, hmtx and name records; the two glyph outlines under .notdef and X; the three metric tables. |
| Build.BuildBaselinesFont | font.py:180-249 | The two pens, the drawing loop, the field maps and the BASE construction produce exactly the built font, or the first failure in source order. The glyf values are the two pens' contents. |
| Fonts.AlphabeticZeroVariant | main.py:9-47 | The second list is the first with three changes: x-middle at 125; romn unlabelled, dashed, at 0; the separate dashed line at 0 gone. |
| Fonts.PositionsInEmBox | main.py:9-47 | Every position in both lists lies in [−200, 800]. |
| Fonts.OneDefaultBaseline | main.py:9-47 | In each list, entry 10 is the only BASE entry named "romn", so the DefaultIndex lookup succeeds. |
| Fonts.MetricFields | main.py:9-47 | Both fonts get OS/2 {sTypoAscender 800, sCapHeight 550, sxHeight 250, sTypoDescender −200} and hhea {ascent 800, descent −200}. |
| Fonts.DiagnosticBaseEntries | main.py:9-23 | The BASE entries of the first list in order are idtp 750, hang 650, math 450, romn 50, ideo −50. |
| Fonts.AlphabeticZeroBaseEntries | main.py:34-47 | The variant's BASE entries are the same except romn 0. |
| Fonts.SortBaseTags | main.py:11-21 | Those five tags sort to hang, ideo, idtp, math, romn. |
| Fonts.BaseTables | main.py:9-47 | Both BASE tables have tags [hang, ideo, idtp, math, romn], coordinates 650, −50, 750, 450 and 50 (0 in the variant), and DefaultIndex 4. |
| Fonts.ReadmeRowsListed | main.py:99-113 | Every coordinate in the README table is a position of the first list. Every BASE, OS/2 and hhea field the README names is an entry of that table at the row's coordinate. |
| Fonts.ListedInReadme | main.py:99-113 | Every entry of the first list has a README row with its coordinate and its field name; the entry at 0 is on the /zero/ row, which shows no coordinate. |
| Fonts.MainFonts | main.py:4-47 | Each of main()'s builds succeeds iff the label font maps every label character. It then yields the OS/2, hhea and BASE values above. |

## Left out

- The fontTools lookups of `measure_text` (font.py:71-85) are not modelled. These are `TTFont`, `getBestCmap`, `getGlyphSet` and `hmtx`. The label font is a parameter: its units per em, a character-to-glyph map and a glyph-to-advance map. The `TTFont` file load at font.py:186 is not modelled either.
- Glyph outlines drawn through `TransformPen` (font.py:99-110) are foreign data. Each glyph is recorded as its name and transform.
- `TTGlyphPen`'s own bookkeeping is not modelled. The pen is the sequence of closed contours and placed glyphs drawn onto it.
- The `FontBuilder` calls (font.py:198-204, 209-223), `newTable` and the BASE otTables objects are not modelled. The model keeps the values handed to them (`Build.FontTables`, `Tables.BaseTable`), not the calls or the binary tables they produce.
- `fb.save`, `os.makedirs` and `print` (font.py:253-255) are file I/O and console output.
- `write_font_stylesheet`, `write_font_readme` and `write_font_license` in main.py write fixed text to files. Only the README's baseline table (main.py:99-113) is modelled, as `Fonts.README_ROWS`.
- Python float rounding in `draw_text_centered` is not modelled; reals are exact.
- The unused `Font` dataclass (font.py:36-40) is not modelled.
- The `id` field of `FontBaseline` is not modelled, and neither is the `TypeError` its 5-argument calls would raise (see above).
- Tables.FieldMap: a nameless OS/2 or hhea entry becomes `UnnamedTableEntry`. In Python the `None` key goes into the dict, and `setupOS2(**…)` / `setupHorizontalHeader(**…)` raise `TypeError` (font.py:221-222).
- Tables.BaseTagEntries: a nameless BASE entry also becomes `UnnamedTableEntry`. Python fails in every such case too, but with a different exception:
  - with two or more BASE entries, `sorted` raises `TypeError` (font.py:226), because any comparison involving `None` raises;
  - with a single BASE entry, sorting compares nothing, so `base_names` is `[None]` and `index("romn")` raises `ValueError` (font.py:247).
  The model reports both cases as `UnnamedTableEntry`.
- Build.BuildSpec: an OS/2 or hhea name is accepted whatever string it is. What `setupOS2` and `setupHorizontalHeader` do with a name that is not a field of their table is not part of this model. Both lists use only the tables' own field names.
- Text.DrawGlyphs is the glyph loop of `draw_text_centered` given its own method; Build.DrawBaselines and Build.BuildBaseTable likewise split `build_baselines_font` into its drawing loop and its BASE part.
