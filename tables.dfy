/**
 * The metric-table values `build_baselines_font` derives from its baseline
 * list: the OS/2 and hhea field maps and the BASE table.
 */
module Tables {
  import opened Wrappers
  import opened Baselines
  import opened Tags

  /** The metric table a baseline entry feeds, if any. */
  datatype Table = BASE | OS2 | HHEA

  /** The table's tag, as the source spells it. */
  function TableTag(t: Table): string
  {
    match t
    case BASE => "BASE"
    case OS2 => "OS/2"
    case HHEA => "hhea"
  }

  /**
   * A baseline entry with the fields the builder reads, in the order main.py
   * passes them: table, name (a table field or BASE tag), label, position,
   * and the line style (no line when absent).
   */
  datatype FontBaseline = FontBaseline(table: Option<Table>, name: Option<string>, labelText: Option<string>,
                                       position: int, style: Option<LineStyle>)

  /** b feeds field k of table t. */
  predicate IsEntry(b: FontBaseline, t: Table, k: string)
  {
    b.table == Some(t) && b.name == Some(k)
  }

  /** b is meant for table t but has no name to key it by. */
  predicate IsUnnamed(b: FontBaseline, t: Table)
  {
    b.table == Some(t) && b.name.None?
  }

  /**
   * `dict((b.name, b.position) for b in bs if b.table == t)` handed on as
   * keyword arguments: a later entry with the same name overrides an earlier
   * one, and a nameless entry cannot be a keyword.
   */
  function FieldMap(bs: seq<FontBaseline>, t: Table): Result<map<string, int>, Failure>
  {
    if bs == [] then Ok(map[])
    else
      match FieldMap(bs[..|bs| - 1], t)
      case Err(e) => Err(e)
      case Ok(m) =>
        var b := bs[|bs| - 1];
        if b.table != Some(t) then Ok(m)
        else if b.name.None? then Err(UnnamedTableEntry(TableTag(t)))
        else Ok(m[b.name.value := b.position])
  }

  /** The map fails exactly when some entry of the table has no name, and then says which table. */
  lemma {:induction false} FieldMapFails(bs: seq<FontBaseline>, t: Table)
    ensures FieldMap(bs, t).Err? <==> exists i :: 0 <= i < |bs| && IsUnnamed(bs[i], t)
    ensures FieldMap(bs, t).Err? ==> FieldMap(bs, t).error == UnnamedTableEntry(TableTag(t))
  {
    if bs != [] {
      var init := bs[..|bs| - 1];
      FieldMapFails(init, t);
      if exists i :: 0 <= i < |init| && IsUnnamed(init[i], t) {
        var i :| 0 <= i < |init| && IsUnnamed(init[i], t);
        assert IsUnnamed(bs[i], t);
      }
      if exists i :: 0 <= i < |bs| && IsUnnamed(bs[i], t) {
        var i :| 0 <= i < |bs| && IsUnnamed(bs[i], t);
        if i < |init| {
          assert IsUnnamed(init[i], t);
        }
      }
    }
  }

  /**
   * The map's keys are the names of the table's entries, and each maps to the
   * position of the last entry with that name.
   */
  lemma {:induction false} FieldMapContents(bs: seq<FontBaseline>, t: Table)
    requires FieldMap(bs, t).Ok?
    ensures forall k :: k in FieldMap(bs, t).value <==> exists i :: 0 <= i < |bs| && IsEntry(bs[i], t, k)
    ensures forall k :: k in FieldMap(bs, t).value ==>
      exists i :: 0 <= i < |bs| && IsEntry(bs[i], t, k) && FieldMap(bs, t).value[k] == bs[i].position
                  && forall j :: i < j < |bs| ==> !IsEntry(bs[j], t, k)
  {
    if bs != [] {
      var init := bs[..|bs| - 1];
      var b := bs[|bs| - 1];
      FieldMapContents(init, t);
      var m := FieldMap(bs, t).value;
      var m0 := FieldMap(init, t).value;
      forall k
        ensures k in m <==> exists i :: 0 <= i < |bs| && IsEntry(bs[i], t, k)
      {
        if k in m0 {
          var i :| 0 <= i < |init| && IsEntry(init[i], t, k);
          assert IsEntry(bs[i], t, k);
        }
        if exists i :: 0 <= i < |bs| && IsEntry(bs[i], t, k) {
          var i :| 0 <= i < |bs| && IsEntry(bs[i], t, k);
          if i < |init| {
            assert IsEntry(init[i], t, k);
          }
        }
      }
      forall k | k in m
        ensures exists i :: 0 <= i < |bs| && IsEntry(bs[i], t, k) && m[k] == bs[i].position
                              && forall j :: i < j < |bs| ==> !IsEntry(bs[j], t, k)
      {
        if IsEntry(b, t, k) {
          assert IsEntry(bs[|bs| - 1], t, k) && m[k] == bs[|bs| - 1].position;
        } else {
          var i :| 0 <= i < |init| && IsEntry(init[i], t, k) && m0[k] == init[i].position
                   && forall j :: i < j < |init| ==> !IsEntry(init[j], t, k);
          assert IsEntry(bs[i], t, k) && m[k] == bs[i].position;
          assert forall j :: i < j < |bs| ==> !IsEntry(bs[j], t, k) by {
            forall j | i < j < |bs|
              ensures !IsEntry(bs[j], t, k)
            {
              if j < |init| {
                assert bs[j] == init[j];
              }
            }
          }
        }
      }
    }
  }

  /**
   * When every entry of the table is named and m gives each name that
   * entry's position, and m has no other keys, the map is exactly m.
   */
  lemma FieldMapOfUniqueNames(bs: seq<FontBaseline>, t: Table, m: map<string, int>)
    requires forall i :: 0 <= i < |bs| && bs[i].table == Some(t) ==>
      bs[i].name.Some? && bs[i].name.value in m && m[bs[i].name.value] == bs[i].position
    requires forall k :: k in m ==> exists i :: 0 <= i < |bs| && IsEntry(bs[i], t, k)
    ensures FieldMap(bs, t) == Ok(m)
  {
    FieldMapFails(bs, t);
    FieldMapContents(bs, t);
    var r := FieldMap(bs, t).value;
    forall k | k in r
      ensures k in m && r[k] == m[k]
    {
      var i :| 0 <= i < |bs| && IsEntry(bs[i], t, k) && r[k] == bs[i].position;
      assert bs[i].table == Some(t);
    }
    forall k | k in m
      ensures k in r
    {
      var i :| 0 <= i < |bs| && IsEntry(bs[i], t, k);
    }
    assert r.Keys == m.Keys;
    assert r == m;
  }

  /**
   * The BASE entries of `filter(lambda b: b.table == "BASE", bs)`, in list
   * order, as (tag, position) pairs; a nameless one has no tag to sort by.
   */
  function BaseTagEntries(bs: seq<FontBaseline>): Result<seq<TagEntry>, Failure>
  {
    if bs == [] then Ok([])
    else
      match BaseTagEntries(bs[..|bs| - 1])
      case Err(e) => Err(e)
      case Ok(init) =>
        var b := bs[|bs| - 1];
        if b.table != Some(BASE) then Ok(init)
        else if b.name.None? then Err(UnnamedTableEntry(TableTag(BASE)))
        else Ok(init + [TagEntry(b.name.value, b.position)])
  }

  /** The indices of the BASE entries of bs, ascending. */
  function BaseIndices(bs: seq<FontBaseline>): seq<nat>
  {
    if bs == [] then []
    else BaseIndices(bs[..|bs| - 1]) + (if bs[|bs| - 1].table == Some(BASE) then [|bs| - 1] else [])
  }

  /** BaseIndices lists every BASE entry of bs exactly once, in list order. */
  lemma {:induction false} BaseIndicesInOrder(bs: seq<FontBaseline>)
    ensures var idx := BaseIndices(bs);
      && (forall j :: 0 <= j < |idx| ==> idx[j] < |bs| && bs[idx[j]].table == Some(BASE))
      && (forall j, j' :: 0 <= j < j' < |idx| ==> idx[j] < idx[j'])
      && (forall i :: 0 <= i < |bs| && bs[i].table == Some(BASE) ==> i in idx)
  {
    if bs != [] {
      var n := |bs| - 1;
      var init := bs[..n];
      BaseIndicesInOrder(init);
      var idx0 := BaseIndices(init);
      assert forall i :: 0 <= i < n ==> bs[i] == init[i];
      if bs[n].table == Some(BASE) {
        var idx := idx0 + [n];
        assert BaseIndices(bs) == idx;
        forall j, j' | 0 <= j < j' < |idx|
          ensures idx[j] < idx[j']
        {
          if j' == |idx0| {
            assert idx[j] == idx0[j] < n;
          }
        }
      } else {
        assert BaseIndices(bs) == idx0;
      }
    }
  }

  /** The BASE entries are the (name, position) pairs at BaseIndices, in that order. */
  lemma {:induction false} BaseTagEntriesInOrder(bs: seq<FontBaseline>)
    requires BaseTagEntries(bs).Ok?
    ensures var idx, es := BaseIndices(bs), BaseTagEntries(bs).value;
      && |es| == |idx|
      && forall j :: 0 <= j < |idx| ==>
           0 <= idx[j] < |bs| && bs[idx[j]].name.Some? && es[j] == TagEntry(bs[idx[j]].name.value, bs[idx[j]].position)
  {
    BaseIndicesInOrder(bs);
    if bs != [] {
      var n := |bs| - 1;
      var init := bs[..n];
      BaseIndicesInOrder(init);
      BaseTagEntriesInOrder(init);
      var idx0, es0 := BaseIndices(init), BaseTagEntries(init).value;
      assert forall j :: 0 <= j < |idx0| ==> bs[idx0[j]] == init[idx0[j]];
      if bs[n].table == Some(BASE) {
        assert BaseIndices(bs) == idx0 + [n];
        assert BaseTagEntries(bs).value == es0 + [TagEntry(bs[n].name.value, bs[n].position)];
      } else {
        assert BaseIndices(bs) == idx0;
        assert BaseTagEntries(bs).value == es0;
      }
    }
  }

  /** The failure case and the membership half of BaseTagEntriesContents. */
  lemma {:induction false} BaseTagEntriesMembers(bs: seq<FontBaseline>)
    ensures BaseTagEntries(bs).Err? <==> exists i :: 0 <= i < |bs| && IsUnnamed(bs[i], BASE)
    ensures BaseTagEntries(bs).Err? ==> BaseTagEntries(bs).error == UnnamedTableEntry("BASE")
    ensures BaseTagEntries(bs).Ok? ==> forall e ::
      e in BaseTagEntries(bs).value <==> exists i :: 0 <= i < |bs| && IsEntry(bs[i], BASE, e.tag) && bs[i].position == e.position
  {
    if bs != [] {
      var init := bs[..|bs| - 1];
      BaseTagEntriesMembers(init);
      if exists i :: 0 <= i < |init| && IsUnnamed(init[i], BASE) {
        var i :| 0 <= i < |init| && IsUnnamed(init[i], BASE);
        assert IsUnnamed(bs[i], BASE);
      }
      if exists i :: 0 <= i < |bs| && IsUnnamed(bs[i], BASE) {
        var i :| 0 <= i < |bs| && IsUnnamed(bs[i], BASE);
        if i < |init| {
          assert IsUnnamed(init[i], BASE);
        }
      }
      if BaseTagEntries(bs).Ok? {
        var r := BaseTagEntries(bs).value;
        forall e
          ensures e in r <==> exists i :: 0 <= i < |bs| && IsEntry(bs[i], BASE, e.tag) && bs[i].position == e.position
        {
          if e in BaseTagEntries(init).value {
            var i :| 0 <= i < |init| && IsEntry(init[i], BASE, e.tag) && init[i].position == e.position;
            assert IsEntry(bs[i], BASE, e.tag);
          }
          if exists i :: 0 <= i < |bs| && IsEntry(bs[i], BASE, e.tag) && bs[i].position == e.position {
            var i :| 0 <= i < |bs| && IsEntry(bs[i], BASE, e.tag) && bs[i].position == e.position;
            if i < |init| {
              assert IsEntry(init[i], BASE, e.tag);
            }
          }
        }
      }
    }
  }

  /**
   * The BASE entries fail exactly when one has no name; otherwise they are
   * the (name, position) pairs of the BASE entries of the list, each once and
   * in list order.
   */
  lemma BaseTagEntriesContents(bs: seq<FontBaseline>)
    ensures BaseTagEntries(bs).Err? <==> exists i :: 0 <= i < |bs| && IsUnnamed(bs[i], BASE)
    ensures BaseTagEntries(bs).Err? ==> BaseTagEntries(bs).error == UnnamedTableEntry("BASE")
    ensures BaseTagEntries(bs).Ok? ==> forall e ::
      e in BaseTagEntries(bs).value <==> exists i :: 0 <= i < |bs| && IsEntry(bs[i], BASE, e.tag) && bs[i].position == e.position
    ensures BaseTagEntries(bs).Ok? ==>
      var idx, es := BaseIndices(bs), BaseTagEntries(bs).value;
      && |es| == |idx|
      && (forall j, j' :: 0 <= j < j' < |idx| ==> idx[j] < idx[j'])
      && (forall j :: 0 <= j < |idx| ==>
            && idx[j] < |bs| && bs[idx[j]].table == Some(BASE) && bs[idx[j]].name.Some?
            && es[j] == TagEntry(bs[idx[j]].name.value, bs[idx[j]].position))
      && (forall i :: 0 <= i < |bs| && bs[i].table == Some(BASE) ==> i in idx)
  {
    BaseTagEntriesMembers(bs);
    BaseIndicesInOrder(bs);
    if BaseTagEntries(bs).Ok? {
      BaseTagEntriesInOrder(bs);
    }
  }

  /** BaseCoord Format 1: a bare coordinate in design units. */
  datatype BaseCoord = BaseCoord(format: int, coordinate: int)

  /** A BaseScriptRecord with its BaseValues: the default baseline's index into the tag list, and one coordinate per tag. */
  datatype BaseScriptRecord = BaseScriptRecord(scriptTag: string, defaultIndex: nat, coords: seq<BaseCoord>)

  /** The horizontal axis of a BASE table: the tag list and the script records. */
  datatype BaseTable = BaseTable(version: int, baseTags: seq<string>, scripts: seq<BaseScriptRecord>)

  /** BASE table version 1.0. */
  const BASE_VERSION: int := 0x00010000
  const BASE_COORD_FORMAT: int := 1
  const DEFAULT_SCRIPT: string := "DFLT"
  /** The default baseline: the Roman (alphabetic) baseline. */
  const DEFAULT_BASELINE: string := "romn"

  /** base_names: the tag of each entry. The ensures only exposes the comprehension's elements to the verifier for DeriveBaseShape. */
  function TagsOf(es: seq<TagEntry>): (r: seq<string>)
    ensures |r| == |es| && forall i :: 0 <= i < |es| ==> r[i] == es[i].tag
  {
    seq(|es|, i requires 0 <= i < |es| => es[i].tag)
  }

  /** The Format 1 coordinates, one per entry. The ensures only exposes the comprehension's elements to the verifier for DeriveBaseShape. */
  function CoordsOf(es: seq<TagEntry>): (r: seq<BaseCoord>)
    ensures |r| == |es| && forall i :: 0 <= i < |es| ==> r[i] == BaseCoord(BASE_COORD_FORMAT, es[i].position)
  {
    seq(|es|, i requires 0 <= i < |es| => BaseCoord(BASE_COORD_FORMAT, es[i].position))
  }

  /** The BASE table built from the sorted entries: it fails when "romn" is not among the tags. */
  function BaseTableOf(sorted: seq<TagEntry>): Result<BaseTable, Failure>
  {
    match IndexOf(TagsOf(sorted), DEFAULT_BASELINE)
    case None => Err(BaselineTagNotFound(DEFAULT_BASELINE))
    case Some(i) => Ok(BaseTable(BASE_VERSION, TagsOf(sorted), [BaseScriptRecord(DEFAULT_SCRIPT, i, CoordsOf(sorted))]))
  }

  /** The BASE table of a baseline list. */
  function DeriveBase(bs: seq<FontBaseline>): Result<BaseTable, Failure>
  {
    match BaseTagEntries(bs)
    case Err(e) => Err(e)
    case Ok(es) => BaseTableOf(SortByTag(es))
  }

  /** Some BASE entry is named "romn". */
  predicate HasDefaultBaseline(bs: seq<FontBaseline>)
  {
    exists i :: 0 <= i < |bs| && IsEntry(bs[i], BASE, DEFAULT_BASELINE)
  }

  /** Deriving BASE fails exactly when a BASE entry is nameless or none is named "romn". */
  lemma DeriveBaseFails(bs: seq<FontBaseline>)
    ensures DeriveBase(bs).Err? <==>
      (exists i :: 0 <= i < |bs| && IsUnnamed(bs[i], BASE)) || !HasDefaultBaseline(bs)
  {
    BaseTagEntriesContents(bs);
    if BaseTagEntries(bs).Ok? {
      var es := BaseTagEntries(bs).value;
      SortedTags(es, DEFAULT_BASELINE);
      if HasDefaultBaseline(bs) {
        var i :| 0 <= i < |bs| && IsEntry(bs[i], BASE, DEFAULT_BASELINE);
        assert TagEntry(DEFAULT_BASELINE, bs[i].position) in es;
      }
    }
  }

  /** A tag is among the sorted tags exactly when some entry carries it. */
  lemma SortedTags(es: seq<TagEntry>, t: string)
    ensures t in TagsOf(SortByTag(es)) <==> exists e :: e in es && e.tag == t
  {
    var sorted := SortByTag(es);
    SortByTagPermutes(es);
    var tags := TagsOf(sorted);
    if t in tags {
      var k :| 0 <= k < |tags| && tags[k] == t;
      assert sorted[k] in multiset(es);
    }
    if exists e :: e in es && e.tag == t {
      var e :| e in es && e.tag == t;
      assert e in multiset(sorted);
      var k :| 0 <= k < |sorted| && sorted[k] == e;
      assert tags[k] == t;
    }
  }

  /**
   * A derived BASE table: version 1.0; the tags are the BASE names ascending,
   * a permutation of the BASE entries sorted stably by name; coordinate i is
   * Format 1 and holds the position of tag i; there is one script record,
   * "DFLT", whose default index is the first index of "romn".
   */
  lemma DeriveBaseShape(bs: seq<FontBaseline>)
    requires DeriveBase(bs).Ok?
    ensures BaseTagEntries(bs).Ok?
    ensures var es := BaseTagEntries(bs).value;
      var sorted := SortByTag(es);
      var base := DeriveBase(bs).value;
      && multiset(sorted) == multiset(es)
      && SortedByTag(sorted)
      && (forall t :: WithTag(sorted, t) == WithTag(es, t))
      && base.version == BASE_VERSION
      && |base.baseTags| == |sorted|
      && (forall i, j :: 0 <= i < j < |base.baseTags| ==> LexLe(base.baseTags[i], base.baseTags[j]))
      && |base.scripts| == 1
      && base.scripts[0].scriptTag == DEFAULT_SCRIPT
      && |base.scripts[0].coords| == |base.baseTags|
      && (forall i :: 0 <= i < |sorted| ==>
            base.baseTags[i] == sorted[i].tag && base.scripts[0].coords[i] == BaseCoord(1, sorted[i].position))
      && base.scripts[0].defaultIndex < |base.baseTags|
      && base.baseTags[base.scripts[0].defaultIndex] == "romn"
      && (forall j :: 0 <= j < base.scripts[0].defaultIndex ==> base.baseTags[j] != "romn")
  {
    var es := BaseTagEntries(bs).value;
    SortByTagPermutes(es);
    SortByTagSorted(es);
    forall t
      ensures WithTag(SortByTag(es), t) == WithTag(es, t)
    {
      SortByTagStable(es, t);
    }
  }
}
