/** The translator's rules stated on what a reader of the header sees: the
    value a cell's descriptor gives each key, which cells are merge followers,
    where the `merge` key sits, which rows are blank, which Logo cells raise a
    warning, and that the document reads back as the rows it was built from. */
module CellRules {
  import opened Wrappers
  import opened Text
  import opened Values
  import opened Coords
  import opened Sheets
  import opened Colors
  import opened Yaml
  import opened Descriptors
  import opened DescriptorFacts
  import YamlParse
  import Seqs

  /** The value a cell's descriptor gives a key: `None` when the descriptor is
      `null` or has no such key. */
  function Get(sheet: Sheet, i: nat, j: nat, k: string): Option<Value>
    requires sheet.Valid() && InGrid(sheet, i, j)
  {
    var d := CellDescriptor(sheet, i, j);
    if d.Some? then Lookup(d.value, k) else None
  }

  // ----- dictionary lookups -----

  lemma {:induction false} LookupAppend(a: CellMap, b: CellMap, k: string)
    ensures Lookup(a + b, k) == if Lookup(a, k).Some? then Lookup(a, k) else Lookup(b, k)
  {
    if a == [] {
      assert a + b == b;
    } else {
      assert (a + b)[1..] == a[1..] + b;
      LookupAppend(a[1..], b, k);
    }
  }

  lemma {:induction false} LookupAbsent(ps: seq<(string, Option<Value>)>, k: string)
    requires forall p :: 0 <= p < |ps| ==> ps[p].0 != k
    ensures Lookup(Collect(ps), k) == None
  {
    if ps != [] {
      LookupAppend(Opt(ps[0]), Collect(ps[1..]), k);
      LookupAbsent(ps[1..], k);
    }
  }

  /** With distinct keys, looking a pair's key up in the collected map gives
      that pair's value, absent or present. */
  lemma {:induction false} LookupCollect(ps: seq<(string, Option<Value>)>, p: nat)
    requires p < |ps|
    requires forall a, b :: 0 <= a < b < |ps| ==> ps[a].0 != ps[b].0
    ensures Lookup(Collect(ps), ps[p].0) == ps[p].1
  {
    LookupAppend(Opt(ps[0]), Collect(ps[1..]), ps[p].0);
    if p == 0 {
      LookupAbsent(ps[1..], ps[0].0);
    } else {
      LookupCollect(ps[1..], p - 1);
    }
  }

  /** No key occurs twice in the canonical order. */
  lemma KeyOrderDistinct()
    ensures forall a, b :: 0 <= a < b < |KEY_ORDER| ==> KEY_ORDER[a] != KEY_ORDER[b]
  {
  }

  /** Key `p` of the rules' list sits right after `merge` and the `p` keys before it. */
  lemma KeysRanked()
    ensures forall p :: 0 <= p < |KEYS| ==> Rank(KEYS[p]) == p + 1
  {
    forall p | 0 <= p < |KEYS| ensures Rank(KEYS[p]) == p + 1 {
      KeyOrderDistinct();
      assert KEY_ORDER[p + 1] == KEYS[p];
    }
  }

  /** Looking up key `p` of the canonical list in a cell that is not a follower
      gives the value of that key's rule, or `None` past the cell's rules. */
  lemma CellLookup(sheet: Sheet, i: nat, j: nat, p: nat)
    requires sheet.Valid() && InGrid(sheet, i, j) && !IsFollower(sheet, i, j) && p < |KEYS|
    ensures Get(sheet, i, j, KEYS[p]) ==
      if p < |AttrPairs(sheet.rows[i][j])| then AttrPairs(sheet.rows[i][j])[p].1 else None
  {
    var c := sheet.rows[i][j];
    var ps := AttrPairs(c);
    AttrPairKeys(c);
    KeysRanked();
    LookupAppend(MergeEntries(RangeOf(sheet, i, j)), Collect(ps), KEYS[p]);
    if p < |ps| {
      LookupCollect(ps, p);
    } else {
      LookupAbsent(ps, KEYS[p]);
    }
  }

  // ----- value rules -----

  /** A `<Logo>` cell (surrounding whitespace allowed) becomes a logo with value `true`. */
  lemma LogoRule(sheet: Sheet, i: nat, j: nat)
    requires sheet.Valid() && InGrid(sheet, i, j) && !IsFollower(sheet, i, j)
    requires IsLogo(sheet.rows[i][j].value)
    ensures CellDescriptor(sheet, i, j).Some?
    ensures Get(sheet, i, j, "type") == Some(StrV("logo"))
    ensures Get(sheet, i, j, "value") == Some(BoolV(true))
  {
    CellLookup(sheet, i, j, 0);
    CellLookup(sheet, i, j, 1);
  }

  /** A `<placeholder>` cell becomes an expert cell whose code is written unquoted. */
  lemma PlaceholderRule(sheet: Sheet, i: nat, j: nat)
    requires sheet.Valid() && InGrid(sheet, i, j) && !IsFollower(sheet, i, j)
    requires IsPlaceholder(sheet.rows[i][j].value)
    ensures CellDescriptor(sheet, i, j).Some?
    ensures Get(sheet, i, j, "type") == Some(StrV("expert"))
    ensures Get(sheet, i, j, "value") == Some(StrV(PLACEHOLDER_CODE))
    ensures EntryLines(Attr("value", StrV(PLACEHOLDER_CODE))) == [KEY_INDENT + "value: " + PLACEHOLDER_CODE]
  {
    CellLookup(sheet, i, j, 0);
    CellLookup(sheet, i, j, 1);
    assert FormatValue(StrV(PLACEHOLDER_CODE)) == PLACEHOLDER_CODE;
    assert KEY_INDENT + "value" + ": " == KEY_INDENT + "value: ";
  }

  /** Any other value is copied unchanged and gets no `type`. */
  lemma CopyRule(sheet: Sheet, i: nat, j: nat)
    requires sheet.Valid() && InGrid(sheet, i, j) && !IsFollower(sheet, i, j)
    requires sheet.rows[i][j].value.Some?
    requires !IsLogo(sheet.rows[i][j].value) && !IsPlaceholder(sheet.rows[i][j].value)
    ensures CellDescriptor(sheet, i, j).Some?
    ensures Get(sheet, i, j, "type") == None
    ensures Get(sheet, i, j, "value") == sheet.rows[i][j].value
  {
    CellLookup(sheet, i, j, 0);
    CellLookup(sheet, i, j, 1);
  }

  /** An empty cell gets neither key. */
  lemma NoValueRule(sheet: Sheet, i: nat, j: nat)
    requires sheet.Valid() && InGrid(sheet, i, j) && !IsFollower(sheet, i, j)
    requires sheet.rows[i][j].value.None?
    ensures Get(sheet, i, j, "type") == None && Get(sheet, i, j, "value") == None
  {
    CellLookup(sheet, i, j, 0);
    CellLookup(sheet, i, j, 1);
  }

  // ----- style rules -----

  /** A cell the decoder reports without a style gets no style key. */
  lemma UnstyledRule(sheet: Sheet, i: nat, j: nat, p: nat)
    requires sheet.Valid() && InGrid(sheet, i, j) && !IsFollower(sheet, i, j)
    requires !sheet.rows[i][j].hasStyle && 2 <= p < |KEYS|
    ensures Get(sheet, i, j, KEYS[p]) == None
  {
    CellLookup(sheet, i, j, p);
  }

  /** Font keys: `bold` only when bold; the name lower-cased unless it is
      Calibri; the size unless it is 11 (or zero); an RGB colour unless its
      digits are `000000`. */
  lemma FontRules(sheet: Sheet, i: nat, j: nat)
    requires sheet.Valid() && InGrid(sheet, i, j) && !IsFollower(sheet, i, j)
    requires sheet.rows[i][j].hasStyle
    ensures var f := sheet.rows[i][j].style.font;
      Get(sheet, i, j, "bold") == if f.bold then Some(BoolV(true)) else None
    ensures var f := sheet.rows[i][j].style.font;
      (Get(sheet, i, j, "font_name").Some? <==> Present(f.name) && Lower(f.name.value) != "calibri")
      && (Get(sheet, i, j, "font_name").Some? ==> Get(sheet, i, j, "font_name") == Some(StrV(Lower(f.name.value))))
    ensures var f := sheet.rows[i][j].style.font;
      (Get(sheet, i, j, "font_size").Some? <==> f.size.Some? && f.size.value != 0 && f.size.value != 11)
      && (Get(sheet, i, j, "font_size").Some? ==> Get(sheet, i, j, "font_size") == Some(IntV(f.size.value)))
    ensures var f := sheet.rows[i][j].style.font;
      (Get(sheet, i, j, "font_color").Some? <==>
        (f.color.Some? && f.color.value.Rgb? && |f.color.value.argb| == 8 && f.color.value.argb[2..] != "000000"))
      && (Get(sheet, i, j, "font_color").Some? ==>
        Get(sheet, i, j, "font_color") == Some(StrV("#" + f.color.value.argb[2..])))
  {
    var f := sheet.rows[i][j].style.font;
    CellLookup(sheet, i, j, 2);
    CellLookup(sheet, i, j, 3);
    CellLookup(sheet, i, j, 4);
    CellLookup(sheet, i, j, 5);
    if f.color.Some? && f.color.value.Rgb? {
      BlackKept(f.color.value.argb);
    }
  }

  /** `bg_color` only for a solid fill whose RGB colour is not white, in any case. */
  lemma FillRule(sheet: Sheet, i: nat, j: nat)
    requires sheet.Valid() && InGrid(sheet, i, j) && !IsFollower(sheet, i, j)
    requires sheet.rows[i][j].hasStyle
    ensures var fill := sheet.rows[i][j].style.fill;
      (Get(sheet, i, j, "bg_color").Some? <==> (fill.fillType == Some("solid") && fill.startColor.Rgb?
        && |fill.startColor.argb| == 8 && Lower(fill.startColor.argb[2..]) != "ffffff"))
      && (Get(sheet, i, j, "bg_color").Some? ==>
        Get(sheet, i, j, "bg_color") == Some(StrV("#" + fill.startColor.argb[2..])))
  {
    var fill := sheet.rows[i][j].style.fill;
    CellLookup(sheet, i, j, 6);
    if fill.startColor.Rgb? {
      WhiteKept(fill.startColor.argb);
    }
  }

  /** `align` unless left; `valign` unless bottom, with `center` written `vcenter`. */
  lemma AlignmentRules(sheet: Sheet, i: nat, j: nat)
    requires sheet.Valid() && InGrid(sheet, i, j) && !IsFollower(sheet, i, j)
    requires sheet.rows[i][j].hasStyle
    ensures var a := sheet.rows[i][j].style.alignment;
      (Get(sheet, i, j, "align").Some? <==> Present(a.horizontal) && a.horizontal.value != "left")
      && (Get(sheet, i, j, "align").Some? ==> Get(sheet, i, j, "align") == Some(StrV(a.horizontal.value)))
    ensures var a := sheet.rows[i][j].style.alignment;
      (Get(sheet, i, j, "valign").Some? <==> Present(a.vertical) && a.vertical.value != "bottom")
      && (a.vertical == Some("center") ==> Get(sheet, i, j, "valign") == Some(StrV("vcenter")))
      && (Get(sheet, i, j, "valign").Some? && a.vertical != Some("center") ==>
        Get(sheet, i, j, "valign") == Some(StrV(a.vertical.value)))
  {
    CellLookup(sheet, i, j, 7);
    CellLookup(sheet, i, j, 8);
  }

  /** `border: 1` exactly when some side has a style; `border_color` then comes
      from the left side's RGB colour alone, unless its digits are `000000`. */
  lemma BorderRules(sheet: Sheet, i: nat, j: nat)
    requires sheet.Valid() && InGrid(sheet, i, j) && !IsFollower(sheet, i, j)
    requires sheet.rows[i][j].hasStyle
    ensures var b := sheet.rows[i][j].style.border;
      Get(sheet, i, j, "border") ==
        if Present(b.left.style) || Present(b.right.style) || Present(b.top.style) || Present(b.bottom.style)
        then Some(IntV(1)) else None
    ensures var b := sheet.rows[i][j].style.border;
      (Get(sheet, i, j, "border_color").Some? <==> (Get(sheet, i, j, "border").Some?
        && b.left.color.Some? && b.left.color.value.Rgb?
        && |b.left.color.value.argb| == 8 && b.left.color.value.argb[2..] != "000000"))
      && (Get(sheet, i, j, "border_color").Some? ==>
        Get(sheet, i, j, "border_color") == Some(StrV("#" + b.left.color.value.argb[2..])))
  {
    var b := sheet.rows[i][j].style.border;
    CellLookup(sheet, i, j, 9);
    CellLookup(sheet, i, j, 10);
    if b.left.color.Some? && b.left.color.value.Rgb? {
      BlackKept(b.left.color.value.argb);
    }
  }

  // ----- key order -----

  lemma OrderedAppend(a: CellMap, b: CellMap)
    requires Ordered(a) && Ordered(b)
    requires forall x, y :: x in a && y in b ==> Rank(x.Key()) < Rank(y.Key())
    ensures Ordered(a + b)
  {
    forall p, q | 0 <= p < q < |a + b| ensures Rank((a + b)[p].Key()) < Rank((a + b)[q].Key()) {
      if q < |a| {
        assert (a + b)[p] == a[p] && (a + b)[q] == a[q];
      } else if p >= |a| {
        assert (a + b)[p] == b[p - |a|] && (a + b)[q] == b[q - |a|];
      } else {
        assert (a + b)[p] in a && (a + b)[q] in b;
      }
    }
  }

  lemma {:induction false} CollectRanked(ps: seq<(string, Option<Value>)>, lo: nat)
    requires forall p :: 0 <= p < |ps| ==> Rank(ps[p].0) == lo + p
    ensures Ordered(Collect(ps))
    ensures forall e :: e in Collect(ps) ==> Rank(e.Key()) >= lo
  {
    if ps != [] {
      CollectRanked(ps[1..], lo + 1);
      OrderedAppend(Opt(ps[0]), Collect(ps[1..]));
    }
  }

  /** A cell's keys come in the canonical order, `merge` first, none twice. */
  lemma CellEntriesOrdered(sheet: Sheet, i: nat, j: nat)
    requires sheet.Valid() && InGrid(sheet, i, j)
    ensures Ordered(CellEntries(sheet, i, j))
    ensures CellDescriptor(sheet, i, j).Some? ==> Ordered(CellDescriptor(sheet, i, j).value)
  {
    var c := sheet.rows[i][j];
    AttrPairKeys(c);
    KeysRanked();
    CollectRanked(AttrPairs(c), 1);
    OrderedAppend(MergeEntries(RangeOf(sheet, i, j)), Collect(AttrPairs(c)));
  }

  // ----- merged ranges -----


  /** The source's string test is the position test: a cell is a follower
      exactly when a range contains it and it is not that range's top-left cell. */
  lemma FollowerIff(sheet: Sheet, i: nat, j: nat)
    requires sheet.Valid()
    ensures IsFollower(sheet, i, j) <==> (RangeOf(sheet, i, j).Some?
      && (RangeOf(sheet, i, j).value.minRow, RangeOf(sheet, i, j).value.minCol) != (i + 1, j + 1))
  {
    var r := RangeOf(sheet, i, j);
    if r.Some? {
      RangeFirstField(r.value.minRow, r.value.minCol, r.value.maxRow, r.value.maxCol);
      CoordinateInjective(i + 1, j + 1, r.value.minRow, r.value.minCol);
    }
  }

  /** In a sheet whose ranges do not overlap: a cell of a range other than its
      top-left one is `null`, and the top-left cell's map opens with the
      range's coordinate. */
  lemma MergedCell(sheet: Sheet, i: nat, j: nat, k: nat)
    requires sheet.Valid() && InGrid(sheet, i, j) && Disjoint(sheet.merged)
    requires k < |sheet.merged| && sheet.merged[k].Contains(i + 1, j + 1)
    ensures var m := sheet.merged[k];
      IsFollower(sheet, i, j) <==> (m.minRow, m.minCol) != (i + 1, j + 1)
    ensures IsFollower(sheet, i, j) ==> CellDescriptor(sheet, i, j) == None
    ensures var m := sheet.merged[k];
      !IsFollower(sheet, i, j) ==> (CellDescriptor(sheet, i, j).Some?
        && CellDescriptor(sheet, i, j).value[0] == Merge(StrV(RangeCoordinate(m.minRow, m.minCol, m.maxRow, m.maxCol))))
  {
    DisjointRangesFound(sheet.merged, i + 1, j + 1, k);
    FollowerIff(sheet, i, j);
  }

  /** A `merge` key appears exactly when some range contains the cell, and only
      as the first key. */
  lemma MergeKeyIff(sheet: Sheet, i: nat, j: nat)
    requires sheet.Valid() && InGrid(sheet, i, j)
    ensures var m := CellEntries(sheet, i, j);
      (m != [] && m[0].Merge?) <==> exists k :: 0 <= k < |sheet.merged| && sheet.merged[k].Contains(i + 1, j + 1)
    ensures var m := CellEntries(sheet, i, j);
      forall p :: 1 <= p < |m| ==> m[p].Attr?
  {
    var c := sheet.rows[i][j];
    var m := CellEntries(sheet, i, j);
    FirstRangeSpec(sheet.merged, i + 1, j + 1);
    forall e | e in Collect(AttrPairs(c)) ensures e.Attr? {
      CollectKeys(AttrPairs(c), e);
    }
    forall p | 1 <= p < |m| ensures m[p].Attr? {
      var n := |MergeEntries(RangeOf(sheet, i, j))|;
      assert m[p] in Collect(AttrPairs(c)) by {
        assert m[p] == Collect(AttrPairs(c))[p - n];
      }
    }
    if m != [] && RangeOf(sheet, i, j).None? {
      assert m[0] in Collect(AttrPairs(c));
    }
  }

  // ----- null descriptors -----

  lemma {:induction false} CollectEmpty(ps: seq<(string, Option<Value>)>)
    ensures Collect(ps) == [] <==> forall p :: 0 <= p < |ps| ==> ps[p].1.None?
  {
    if ps != [] {
      CollectEmpty(ps[1..]);
      if Collect(ps) == [] {
        forall p | 0 <= p < |ps| ensures ps[p].1.None? {
          if p > 0 {
            assert ps[p] == ps[1..][p - 1];
          }
        }
      }
    }
  }

  /** A cell is written `null` exactly when it is a follower, or it lies in no
      range, has no value and carries no style rule that applies. */
  lemma DescriptorNullIff(sheet: Sheet, i: nat, j: nat)
    requires sheet.Valid() && InGrid(sheet, i, j)
    ensures var c := sheet.rows[i][j];
      CellDescriptor(sheet, i, j).None? <==> (IsFollower(sheet, i, j)
        || ((forall k :: 0 <= k < |sheet.merged| ==> !sheet.merged[k].Contains(i + 1, j + 1))
          && c.value.None?
          && (!c.hasStyle || forall p :: 0 <= p < |StylePairs(c.style)| ==> StylePairs(c.style)[p].1.None?)))
  {
    var c := sheet.rows[i][j];
    var ps := AttrPairs(c);
    FirstRangeSpec(sheet.merged, i + 1, j + 1);
    CollectEmpty(ps);
    if c.hasStyle {
      CollectEmpty(StylePairs(c.style));
      CollectAppend(ValuePairs(c.value), StylePairs(c.style));
      CollectEmpty(ValuePairs(c.value));
    } else {
      assert ps == ValuePairs(c.value);
    }
    assert c.value.Some? ==> ps[1].1.Some?;
  }

  // ----- rows -----

  /** A row is written `[]` exactly when it is blank; any other row has one
      entry per cell, each that cell's descriptor. */
  lemma RowShape(sheet: Sheet, i: nat)
    requires sheet.Valid() && i < |sheet.rows|
    ensures AllRows(sheet)[i] == [] <==> IsEmptyRow(sheet.rows[i])
    ensures RowLines(AllRows(sheet)[i]) == [BLANK_ROW_LINE] <==> IsEmptyRow(sheet.rows[i])
    ensures !IsEmptyRow(sheet.rows[i]) ==> (|AllRows(sheet)[i]| == |sheet.rows[i]|
      && forall j :: 0 <= j < |sheet.rows[i]| ==> AllRows(sheet)[i][j] == CellDescriptor(sheet, i, j))
  {
    RowsUpToAt(sheet, |sheet.rows|, i);
    if !IsEmptyRow(sheet.rows[i]) {
      forall j | 0 <= j < |sheet.rows[i]| ensures AllRows(sheet)[i][j] == CellDescriptor(sheet, i, j) {
        CellsUpToAt(sheet, i, |sheet.rows[i]|, j);
      }
      assert |ROW_START_LINE| != |BLANK_ROW_LINE|;
    }
  }

  // ----- Logo warnings -----

  /** `w` is the warning of the Logo cell (i, j). */
  predicate WarningAt(sheet: Sheet, i: nat, j: nat, w: string)
    requires sheet.Valid()
  {
    InGrid(sheet, i, j) && ObscuresBelow(sheet, i, j) && w == LogoWarning(BelowValue(sheet, i, j).value, i, j)
  }

  lemma CellWarningIff(sheet: Sheet, i: nat, j: nat, w: string)
    requires sheet.Valid() && InGrid(sheet, i, j)
    ensures w in CellWarnings(sheet, i, j) <==> WarningAt(sheet, i, j, w)
  {
  }

  /** The warnings of a row's cells, by column. */
  function CellWarningsOf(sheet: Sheet, i: nat): nat -> seq<string>
    requires sheet.Valid() && i < |sheet.rows|
  {
    (j: nat) => if j < |sheet.rows[i]| then CellWarnings(sheet, i, j) else []
  }

  /** The warnings of the rows, by row index. */
  function RowWarningsOf(sheet: Sheet): nat -> seq<string>
    requires sheet.Valid()
  {
    (k: nat) => if k < |sheet.rows| then RowWarnings(sheet, k) else []
  }

  /** Scanning a row concatenates its cells' warnings in column order. */
  lemma {:induction false} RowWarningsConcat(sheet: Sheet, i: nat, n: nat)
    requires sheet.Valid() && i < |sheet.rows| && n <= |sheet.rows[i]|
    ensures RowWarningsUpTo(sheet, i, n) == Seqs.Concat(CellWarningsOf(sheet, i), n)
  {
    if n > 0 {
      RowWarningsConcat(sheet, i, n - 1);
      assert CellWarningsOf(sheet, i)(n - 1) == CellWarnings(sheet, i, n - 1);
    }
  }

  /** Scanning the sheet concatenates its rows' warnings in row order. */
  lemma {:induction false} WarningsConcat(sheet: Sheet, n: nat)
    requires sheet.Valid() && n <= |sheet.rows|
    ensures WarningsUpTo(sheet, n) == Seqs.Concat(RowWarningsOf(sheet), n)
  {
    if n > 0 {
      WarningsConcat(sheet, n - 1);
      assert RowWarningsOf(sheet)(n - 1) == RowWarnings(sheet, n - 1);
    }
  }

  /** A blank row raises no warning; any other raises those of its cells. */
  lemma RowWarningsMember(sheet: Sheet, i: nat, w: string)
    requires sheet.Valid() && i < |sheet.rows|
    ensures w in RowWarnings(sheet, i) <==> exists j: nat :: j < |sheet.rows[i]| && w in CellWarnings(sheet, i, j)
  {
    var f := CellWarningsOf(sheet, i);
    RowWarningsConcat(sheet, i, |sheet.rows[i]|);
    Seqs.ConcatMember(f, |sheet.rows[i]|, w);
    if w in RowWarnings(sheet, i) {
      var j: nat :| j < |sheet.rows[i]| && w in f(j);
      assert w in CellWarnings(sheet, i, j);
    }
    forall j: nat | j < |sheet.rows[i]| && w in CellWarnings(sheet, i, j) ensures w in RowWarnings(sheet, i) {
      assert sheet.rows[i][j].value.Some?;
      assert w in f(j);
    }
  }

  /** A text is among the warnings exactly when some Logo cell, not a
      follower, has a truthy value below it and its warning is that text. */
  lemma SheetWarningsIff(sheet: Sheet, w: string)
    requires sheet.Valid()
    ensures w in SheetWarnings(sheet) <==> exists i: nat, j: nat :: WarningAt(sheet, i, j, w)
  {
    var f := RowWarningsOf(sheet);
    WarningsConcat(sheet, |sheet.rows|);
    Seqs.ConcatMember(f, |sheet.rows|, w);
    if w in SheetWarnings(sheet) {
      var i: nat :| i < |sheet.rows| && w in f(i);
      RowWarningsMember(sheet, i, w);
      var j: nat :| j < |sheet.rows[i]| && w in CellWarnings(sheet, i, j);
      CellWarningIff(sheet, i, j, w);
    }
    forall i: nat, j: nat | WarningAt(sheet, i, j, w) ensures w in SheetWarnings(sheet) {
      CellWarningIff(sheet, i, j, w);
      RowWarningsMember(sheet, i, w);
      assert w in f(i);
    }
  }

  // ----- the document -----

  /** The header document reads back as the rows it was built from. */
  lemma HeaderRoundTrip(sheet: Sheet)
    requires sheet.Valid()
    ensures YamlParse.ParseYaml(YamlLines(AllRows(sheet))) == Some(AllRows(sheet))
  {
    AllRowsWellFormed(sheet);
    YamlParse.YamlRoundTrip(AllRows(sheet));
  }
}
