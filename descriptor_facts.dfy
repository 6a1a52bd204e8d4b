/** Properties of the cell-descriptor rules: the shape of the maps, the
    follower and leader rules, the value and style rules key by key, blank
    rows, and the Logo warnings. */
module DescriptorFacts {
  import opened Wrappers
  import opened Values
  import opened Sheets
  import opened Yaml
  import opened Descriptors
  import YamlParse

  // ----- assembling maps from pairs -----

  lemma CollectOne(ps: seq<(string, Option<Value>)>)
    requires |ps| == 1
    ensures Collect(ps) == Opt(ps[0])
  {
    assert ps[1..] == [];
  }

  lemma CollectTwo(ps: seq<(string, Option<Value>)>)
    requires |ps| == 2
    ensures Collect(ps) == Opt(ps[0]) + Opt(ps[1])
  {
    CollectOne(ps[1..]);
  }

  lemma CollectFour(ps: seq<(string, Option<Value>)>)
    requires |ps| == 4
    ensures Collect(ps) == Opt(ps[0]) + Opt(ps[1]) + Opt(ps[2]) + Opt(ps[3])
  {
    CollectTwo(ps[2..]);
    assert ps[1..][1..] == ps[2..];
  }

  lemma {:induction false} CollectAppend(a: seq<(string, Option<Value>)>, b: seq<(string, Option<Value>)>)
    ensures Collect(a + b) == Collect(a) + Collect(b)
  {
    if a != [] {
      assert (a + b)[1..] == a[1..] + b;
      CollectAppend(a[1..], b);
    } else {
      assert a + b == b;
    }
  }

  lemma CollectStyle(s: Style)
    ensures Collect(StylePairs(s)) == Collect(FontPairs(s.font)) + Collect(FillPairs(s.fill))
      + Collect(AlignmentPairs(s.alignment)) + Collect(BorderPairs(s.border))
  {
    var f, l, a, b := FontPairs(s.font), FillPairs(s.fill), AlignmentPairs(s.alignment), BorderPairs(s.border);
    CollectAppend(f + l + a, b);
    CollectAppend(f + l, a);
    CollectAppend(f, l);
  }

  lemma CollectAttrs(c: Cell)
    ensures Collect(AttrPairs(c)) == Collect(ValuePairs(c.value))
      + (if c.hasStyle then Collect(StylePairs(c.style)) else [])
  {
    CollectAppend(ValuePairs(c.value), if c.hasStyle then StylePairs(c.style) else []);
  }

  // ----- the keys a map may hold -----

  /** Every attribute collected from a list of pairs uses one of the pairs' keys. */
  lemma {:induction false} CollectKeys(ps: seq<(string, Option<Value>)>, e: Entry)
    requires e in Collect(ps)
    ensures e.Attr? && exists p :: 0 <= p < |ps| && ps[p].0 == e.key
  {
    if ps != [] {
      if e in Opt(ps[0]) {
        assert ps[0].0 == e.key;
      } else {
        CollectKeys(ps[1..], e);
        var p :| 0 <= p < |ps[1..]| && ps[1..][p].0 == e.key;
        assert ps[p + 1].0 == e.key;
      }
    }
  }

  /** The pairs of any cell use the canonical keys, in the canonical order. */
  lemma AttrPairKeys(c: Cell)
    ensures |AttrPairs(c)| <= |KEYS|
    ensures forall p :: 0 <= p < |AttrPairs(c)| ==> AttrPairs(c)[p].0 == KEYS[p]
  {
  }

  lemma KeysAreValid()
    ensures forall p :: 0 <= p < |KEYS| ==> YamlParse.ValidKey(KEYS[p]) && KEYS[p] != "merge"
  {
  }

  /** The keys of a cell map are valid YAML keys, and `merge` only ever holds
      the nested range map. */
  lemma CellEntriesKeys(sheet: Sheet, i: nat, j: nat)
    requires sheet.Valid() && InGrid(sheet, i, j)
    ensures forall e :: e in CellEntries(sheet, i, j) && e.Attr? ==> YamlParse.ValidKey(e.key) && e.key != "merge"
  {
    var c := sheet.rows[i][j];
    AttrPairKeys(c);
    KeysAreValid();
    forall e | e in CellEntries(sheet, i, j) && e.Attr?
      ensures YamlParse.ValidKey(e.key) && e.key != "merge"
    {
      assert e in Collect(AttrPairs(c));
      CollectKeys(AttrPairs(c), e);
    }
  }

  /** Every row the translator builds can be emitted and read back. */
  lemma AllRowsWellFormed(sheet: Sheet)
    requires sheet.Valid()
    ensures forall row :: row in AllRows(sheet) ==> EmittableRow(row) && YamlParse.ValidRow(row)
  {
    forall row | row in AllRows(sheet) ensures EmittableRow(row) && YamlParse.ValidRow(row) {
      var i :| 0 <= i < |AllRows(sheet)| && AllRows(sheet)[i] == row;
      RowsUpToAt(sheet, |sheet.rows|, i);
      forall c | c in row ensures EmittableCell(c) && (c.Some? ==> YamlParse.ValidCellMap(c.value)) {
        var j :| 0 <= j < |row| && row[j] == c;
        CellsUpToAt(sheet, i, |sheet.rows[i]|, j);
        if c.Some? {
          CellEntriesKeys(sheet, i, j);
        }
      }
    }
  }
}
