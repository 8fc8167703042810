/**
 * The BASE tag list of `build_baselines_font`: Python's `sorted(..., key=name)`
 * on strings (code-point lexicographic order, stable) and `list.index`.
 */
module Tags {
  import opened Wrappers

  /** Python's `<=` on strings: lexicographic by code point, a prefix before its extensions. */
  predicate LexLe(a: string, b: string)
  {
    a == [] || (b != [] && (a[0] < b[0] || (a[0] == b[0] && LexLe(a[1..], b[1..]))))
  }

  lemma {:induction false} LexLeRefl(a: string)
    ensures LexLe(a, a)
  {
    if a != [] {
      LexLeRefl(a[1..]);
    }
  }

  lemma {:induction false} LexLeTotal(a: string, b: string)
    ensures LexLe(a, b) || LexLe(b, a)
  {
    if a != [] && b != [] && a[0] == b[0] {
      LexLeTotal(a[1..], b[1..]);
    }
  }

  lemma {:induction false} LexLeTrans(a: string, b: string, c: string)
    requires LexLe(a, b) && LexLe(b, c)
    ensures LexLe(a, c)
  {
    if a != [] && a[0] == b[0] && b[0] == c[0] {
      LexLeTrans(a[1..], b[1..], c[1..]);
    }
  }

  lemma {:induction false} LexLeAntisym(a: string, b: string)
    requires LexLe(a, b) && LexLe(b, a)
    ensures a == b
  {
    if a != [] {
      LexLeAntisym(a[1..], b[1..]);
      assert a == [a[0]] + a[1..];
      assert b == [b[0]] + b[1..];
    }
  }

  /** A named BASE entry: the tag it contributes and its coordinate. */
  datatype TagEntry = TagEntry(tag: string, position: int)

  /** Ascending by tag. */
  predicate SortedByTag(s: seq<TagEntry>)
  {
    forall i, j :: 0 <= i < j < |s| ==> LexLe(s[i].tag, s[j].tag)
  }

  /** The entries with tag t, in their order in s. */
  function WithTag(s: seq<TagEntry>, t: string): seq<TagEntry>
  {
    if s == [] then [] else (if s[0].tag == t then [s[0]] else []) + WithTag(s[1..], t)
  }

  /** Puts e before the first entry whose tag is not below e's, so e precedes equal tags. */
  function Insert(e: TagEntry, s: seq<TagEntry>): seq<TagEntry>
  {
    if s == [] || LexLe(e.tag, s[0].tag) then [e] + s else [s[0]] + Insert(e, s[1..])
  }

  /** `sorted(s, key=tag)`: insertion of each entry into the sorted rest. */
  function SortByTag(s: seq<TagEntry>): seq<TagEntry>
  {
    if s == [] then [] else Insert(s[0], SortByTag(s[1..]))
  }

  lemma {:induction false} InsertPermutes(e: TagEntry, s: seq<TagEntry>)
    ensures multiset(Insert(e, s)) == multiset(s) + multiset{e}
  {
    if s != [] && !LexLe(e.tag, s[0].tag) {
      InsertPermutes(e, s[1..]);
      assert s == [s[0]] + s[1..];
    }
  }

  lemma {:induction false} InsertSorted(e: TagEntry, s: seq<TagEntry>)
    requires SortedByTag(s)
    ensures SortedByTag(Insert(e, s))
  {
    if s == [] {
    } else if LexLe(e.tag, s[0].tag) {
      forall j | 0 < j < |s| + 1
        ensures LexLe(e.tag, ([e] + s)[j].tag)
      {
        if j > 1 {
          LexLeTrans(e.tag, s[0].tag, s[j - 1].tag);
        }
      }
    } else {
      LexLeTotal(e.tag, s[0].tag);
      var rest := Insert(e, s[1..]);
      InsertSorted(e, s[1..]);
      InsertPermutes(e, s[1..]);
      forall j | 0 <= j < |rest|
        ensures LexLe(s[0].tag, rest[j].tag)
      {
        assert rest[j] in multiset(rest);
        assert rest[j] in multiset(s[1..]) + multiset{e};
        if rest[j] != e {
          var k :| 0 <= k < |s[1..]| && s[1..][k] == rest[j];
          assert s[1 + k] == rest[j];
        }
      }
    }
  }

  lemma {:induction false} InsertWithTag(e: TagEntry, s: seq<TagEntry>, t: string)
    ensures WithTag(Insert(e, s), t) == (if e.tag == t then [e] else []) + WithTag(s, t)
  {
    if s == [] || LexLe(e.tag, s[0].tag) {
      assert ([e] + s)[1..] == s;
    } else {
      LexLeRefl(e.tag);
      assert s[0].tag != e.tag;
      InsertWithTag(e, s[1..], t);
      assert ([s[0]] + Insert(e, s[1..]))[1..] == Insert(e, s[1..]);
    }
  }

  /** The result is ascending by tag. */
  lemma {:induction false} SortByTagSorted(s: seq<TagEntry>)
    ensures SortedByTag(SortByTag(s))
  {
    if s != [] {
      SortByTagSorted(s[1..]);
      InsertSorted(s[0], SortByTag(s[1..]));
    }
  }

  /** The result is a permutation of the input. */
  lemma {:induction false} SortByTagPermutes(s: seq<TagEntry>)
    ensures multiset(SortByTag(s)) == multiset(s)
  {
    if s != [] {
      SortByTagPermutes(s[1..]);
      InsertPermutes(s[0], SortByTag(s[1..]));
      assert s == [s[0]] + s[1..];
    }
  }

  /** The sort is stable: entries with equal tags keep their input order. */
  lemma {:induction false} SortByTagStable(s: seq<TagEntry>, t: string)
    ensures WithTag(SortByTag(s), t) == WithTag(s, t)
  {
    if s != [] {
      SortByTagStable(s[1..], t);
      InsertWithTag(s[0], SortByTag(s[1..]), t);
    }
  }

  lemma {:induction false} WithTagMember(s: seq<TagEntry>, i: nat)
    requires i < |s|
    ensures s[i] in WithTag(s, s[i].tag)
  {
    if i > 0 {
      WithTagMember(s[1..], i - 1);
    }
  }

  lemma {:induction false} WithTagOnly(s: seq<TagEntry>, t: string, e: TagEntry)
    requires e in WithTag(s, t)
    ensures e.tag == t && e in s
  {
    if s[0] != e || s[0].tag != t {
      WithTagOnly(s[1..], t, e);
    }
  }

  /** Two sorted sequences with the same entries per tag start with the same entry. */
  lemma SortedHeads(a: seq<TagEntry>, b: seq<TagEntry>)
    requires a != [] && b != [] && SortedByTag(a) && SortedByTag(b)
    requires forall t :: WithTag(a, t) == WithTag(b, t)
    ensures a[0] == b[0]
  {
    var ta, tb := a[0].tag, b[0].tag;
    WithTagMember(a, 0);
    assert WithTag(a, ta) == WithTag(b, ta);
    WithTagOnly(b, ta, a[0]);
    LexLeRefl(ta);
    LexLeRefl(tb);
    assert LexLe(tb, ta);
    WithTagMember(b, 0);
    assert WithTag(a, tb) == WithTag(b, tb);
    WithTagOnly(a, tb, b[0]);
    assert LexLe(ta, tb);
    LexLeAntisym(ta, tb);
    assert WithTag(a, ta)[0] == a[0];
    assert WithTag(b, ta)[0] == b[0];
  }

  lemma WithTagTail(a: seq<TagEntry>, b: seq<TagEntry>, t: string)
    requires a != [] && b != [] && a[0] == b[0] && WithTag(a, t) == WithTag(b, t)
    ensures WithTag(a[1..], t) == WithTag(b[1..], t)
  {
    var p := if a[0].tag == t then [a[0]] else [];
    assert (p + WithTag(a[1..], t))[|p|..] == WithTag(a[1..], t);
    assert (p + WithTag(b[1..], t))[|p|..] == WithTag(b[1..], t);
  }

  /**
   * Being ascending and stable pins the order down: two sorted sequences with
   * the same entries per tag, in the same order, are equal. So SortByTag is
   * the only result `sorted` can give.
   */
  lemma {:induction false} SortedUnique(a: seq<TagEntry>, b: seq<TagEntry>)
    requires SortedByTag(a) && SortedByTag(b)
    requires forall t :: WithTag(a, t) == WithTag(b, t)
    ensures a == b
    decreases |a| + |b|
  {
    if a == [] && b == [] {
    } else if a == [] || b == [] {
      var e := if a == [] then b[0] else a[0];
      WithTagMember(if a == [] then b else a, 0);
      assert false;
    } else {
      SortedHeads(a, b);
      forall t
        ensures WithTag(a[1..], t) == WithTag(b[1..], t)
      {
        assert WithTag(a, t) == WithTag(b, t);
        WithTagTail(a, b, t);
      }
      assert SortedByTag(a[1..]) && SortedByTag(b[1..]) by {
        forall i, j | 0 <= i < j < |a| - 1
          ensures LexLe(a[1..][i].tag, a[1..][j].tag)
        {
          assert a[1..][i] == a[i + 1] && a[1..][j] == a[j + 1];
        }
        forall i, j | 0 <= i < j < |b| - 1
          ensures LexLe(b[1..][i].tag, b[1..][j].tag)
        {
          assert b[1..][i] == b[i + 1] && b[1..][j] == b[j + 1];
        }
      }
      SortedUnique(a[1..], b[1..]);
      assert a == [a[0]] + a[1..] && b == [b[0]] + b[1..];
    }
  }

  /** `list.index(x)`: the first index of x, or None where Python raises ValueError. */
  function IndexOf<T(==)>(s: seq<T>, x: T): (r: Option<nat>)
    ensures r.Some? <==> x in s
    ensures r.Some? ==> r.value < |s| && s[r.value] == x && forall j :: 0 <= j < r.value ==> s[j] != x
  {
    if s == [] then None
    else if s[0] == x then Some(0)
    else match IndexOf(s[1..], x)
      case None => None
      case Some(i) => Some(i + 1)
  }
}
