/** The cell-descriptor rules of the translator, as functions of the decoded
    sheet: which rows are blank, which cells are merge followers, and which keys
    a cell's map receives from its merged range, its value and its style. The
    maps are assembled from a fixed list of (key, optional value) pairs, in the
    canonical key order. */
module Descriptors {
  import opened Wrappers
  import opened Text
  import opened Values
  import opened Coords
  import opened Sheets
  import opened Colors
  import opened Yaml
  import Seqs

  const LOGO_MARK: string := "<Logo>"
  const PLACEHOLDER_MARK: string := "<placeholder>"

  /** The attribute keys in the order the rules add them (`merge` comes before all). */
  const KEYS: seq<string> := ["type", "value", "bold", "font_name", "font_size", "font_color",
    "bg_color", "align", "valign", "border", "border_color"]

  /** The canonical key order: `merge` first, then the keys in the order the rules add them. */
  const KEY_ORDER: seq<string> := ["merge"] + KEYS

  /** The first position of `k` in `s`, or `|s|` when `k` does not occur. */
  function IndexOf(s: seq<string>, k: string): (r: nat)
    ensures r <= |s|
    ensures r < |s| ==> s[r] == k
    ensures forall q :: 0 <= q < r ==> s[q] != k
  {
    if s == [] then 0
    else if s[0] == k then 0
    else 1 + IndexOf(s[1..], k)
  }

  /** A key's place in the canonical order: `merge` first, unknown keys last. */
  function Rank(k: string): nat
  {
    IndexOf(KEY_ORDER, k)
  }

  /** The keys of a map strictly follow the canonical order (so none repeats). */
  predicate Ordered(m: CellMap)
  {
    forall p, q :: 0 <= p < q < |m| ==> Rank(m[p].Key()) < Rank(m[q].Key())
  }

  /** The value of the first attribute with the given key, as a dictionary lookup. */
  function Lookup(m: CellMap, k: string): Option<Value>
  {
    if m == [] then None
    else if m[0].Attr? && m[0].key == k then Some(m[0].val)
    else Lookup(m[1..], k)
  }

  /** A pair whose value is present contributes one attribute, any other nothing. */
  function Opt(p: (string, Option<Value>)): CellMap
  {
    if p.1.Some? then [Attr(p.0, p.1.value)] else []
  }

  function Collect(pairs: seq<(string, Option<Value>)>): (m: CellMap)
    ensures |m| <= |pairs|
  {
    if pairs == [] then [] else Opt(pairs[0]) + Collect(pairs[1..])
  }

  // ----- value rules -----

  predicate IsLogo(v: Option<Value>)
  {
    v.Some? && Strip(Str(v.value)) == LOGO_MARK
  }

  predicate IsPlaceholder(v: Option<Value>)
  {
    v.Some? && Strip(Str(v.value)) == PLACEHOLDER_MARK
  }

  function TypeTag(v: Option<Value>): Option<Value>
  {
    if IsLogo(v) then Some(StrV("logo"))
    else if IsPlaceholder(v) then Some(StrV("expert"))
    else None
  }

  function CellValue(v: Option<Value>): Option<Value>
  {
    if IsLogo(v) then Some(BoolV(true))
    else if IsPlaceholder(v) then Some(StrV(PLACEHOLDER_CODE))
    else v
  }

  function ValuePairs(v: Option<Value>): seq<(string, Option<Value>)>
  {
    [("type", TypeTag(v)), ("value", CellValue(v))]
  }

  // ----- style rules -----

  function BoldValue(f: Font): Option<Value>
  {
    if f.bold then Some(BoolV(true)) else None
  }

  function FontNameValue(f: Font): Option<Value>
  {
    if Present(f.name) && Lower(f.name.value) != "calibri" then Some(StrV(Lower(f.name.value))) else None
  }

  function FontSizeValue(f: Font): Option<Value>
  {
    if f.size.Some? && f.size.value != 0 && f.size.value != 11 then Some(IntV(f.size.value)) else None
  }

  /** An RGB colour that survives conversion and is not the default. */
  function RgbValue(c: Option<Color>, default: string): Option<Value>
  {
    if c.Some? && c.value.Rgb? && KeptColor(c.value.argb, default).Some? then
      Some(StrV(KeptColor(c.value.argb, default).value))
    else None
  }

  function BgColorValue(fill: Fill): Option<Value>
  {
    if fill.fillType == Some("solid") then RgbValue(Some(fill.startColor), WHITE) else None
  }

  function AlignValue(a: Alignment): Option<Value>
  {
    if Present(a.horizontal) && a.horizontal.value != "left" then Some(StrV(a.horizontal.value)) else None
  }

  function VAlignValue(a: Alignment): Option<Value>
  {
    if Present(a.vertical) && a.vertical.value != "bottom" then
      Some(StrV(if a.vertical.value == "center" then "vcenter" else a.vertical.value))
    else None
  }

  predicate HasBorder(b: Border)
  {
    Present(b.left.style) || Present(b.right.style) || Present(b.top.style) || Present(b.bottom.style)
  }

  function BorderValue(b: Border): Option<Value>
  {
    if HasBorder(b) then Some(IntV(1)) else None
  }

  /** Only the left side's colour is consulted. */
  function BorderColorValue(b: Border): Option<Value>
  {
    if HasBorder(b) then RgbValue(b.left.color, BLACK) else None
  }

  function FontPairs(f: Font): seq<(string, Option<Value>)>
  {
    [("bold", BoldValue(f)), ("font_name", FontNameValue(f)), ("font_size", FontSizeValue(f)),
     ("font_color", RgbValue(f.color, BLACK))]
  }

  function FillPairs(fill: Fill): seq<(string, Option<Value>)>
  {
    [("bg_color", BgColorValue(fill))]
  }

  function AlignmentPairs(a: Alignment): seq<(string, Option<Value>)>
  {
    [("align", AlignValue(a)), ("valign", VAlignValue(a))]
  }

  function BorderPairs(b: Border): seq<(string, Option<Value>)>
  {
    [("border", BorderValue(b)), ("border_color", BorderColorValue(b))]
  }

  function StylePairs(s: Style): seq<(string, Option<Value>)>
  {
    FontPairs(s.font) + FillPairs(s.fill) + AlignmentPairs(s.alignment) + BorderPairs(s.border)
  }

  /** The attribute pairs of a cell: value rules, then style rules when the cell has a style. */
  function AttrPairs(c: Cell): seq<(string, Option<Value>)>
  {
    ValuePairs(c.value) + (if c.hasStyle then StylePairs(c.style) else [])
  }

  // ----- the grid -----

  predicate InGrid(sheet: Sheet, i: nat, j: nat)
  {
    i < |sheet.rows| && j < |sheet.rows[i]|
  }

  /** `is_empty_row`: no cell of the row has a value or a style. */
  predicate IsEmptyRow(row: seq<Cell>)
  {
    forall j :: 0 <= j < |row| ==> row[j].value.None? && !row[j].hasStyle
  }

  /** The merged range found for the cell at 0-based position (i, j). */
  function RangeOf(sheet: Sheet, i: nat, j: nat): (r: Option<MergedRange>)
    requires sheet.Valid()
    ensures r.Some? ==> r.value.Valid()
  {
    FirstRangeIn(sheet.merged, i + 1, j + 1);
    FirstRange(sheet.merged, i + 1, j + 1)
  }

  /** The source's follower test: inside a range, and the cell's coordinate is
      not the first field of the range's coordinate. */
  predicate IsFollower(sheet: Sheet, i: nat, j: nat)
    requires sheet.Valid()
  {
    var r := RangeOf(sheet, i, j);
    r.Some? && Coordinate(i + 1, j + 1) != FirstField(r.value.Coord())
  }

  function MergeEntries(r: Option<MergedRange>): CellMap
    requires r.Some? ==> r.value.Valid()
  {
    if r.Some? then [Merge(StrV(r.value.Coord()))] else []
  }

  /** The map a cell that is not a follower builds. */
  function CellEntries(sheet: Sheet, i: nat, j: nat): CellMap
    requires sheet.Valid() && InGrid(sheet, i, j)
  {
    MergeEntries(RangeOf(sheet, i, j)) + Collect(AttrPairs(sheet.rows[i][j]))
  }

  /** A cell's descriptor: `None` for a follower or an empty map. */
  function CellDescriptor(sheet: Sheet, i: nat, j: nat): Option<CellMap>
    requires sheet.Valid() && InGrid(sheet, i, j)
  {
    if IsFollower(sheet, i, j) then None
    else
      var m := CellEntries(sheet, i, j);
      if m == [] then None else Some(m)
  }

  /** The descriptors of the first `n` cells of row `i`, one per cell. */
  function CellsUpTo(sheet: Sheet, i: nat, n: nat): (row: Row)
    requires sheet.Valid() && i < |sheet.rows| && n <= |sheet.rows[i]|
    ensures |row| == n
  {
    if n == 0 then [] else CellsUpTo(sheet, i, n - 1) + [CellDescriptor(sheet, i, n - 1)]
  }

  /** The descriptors of row `i`, by column. */
  function DescriptorsOf(sheet: Sheet, i: nat): nat -> Option<CellMap>
    requires sheet.Valid() && i < |sheet.rows|
  {
    (j: nat) => if j < |sheet.rows[i]| then CellDescriptor(sheet, i, j) else None
  }

  lemma {:induction false} CellsUpToTabulate(sheet: Sheet, i: nat, n: nat)
    requires sheet.Valid() && i < |sheet.rows| && n <= |sheet.rows[i]|
    ensures CellsUpTo(sheet, i, n) == Seqs.Tabulate(DescriptorsOf(sheet, i), n)
  {
    if n > 0 {
      CellsUpToTabulate(sheet, i, n - 1);
      assert DescriptorsOf(sheet, i)(n - 1) == CellDescriptor(sheet, i, n - 1);
    }
  }

  /** Entry `j` of the row data is the descriptor of cell `j`. */
  lemma CellsUpToAt(sheet: Sheet, i: nat, n: nat, j: nat)
    requires sheet.Valid() && i < |sheet.rows| && j < n <= |sheet.rows[i]|
    ensures CellsUpTo(sheet, i, n)[j] == CellDescriptor(sheet, i, j)
  {
    CellsUpToTabulate(sheet, i, n);
    Seqs.TabulateAt(DescriptorsOf(sheet, i), n, j);
  }

  function RowData(sheet: Sheet, i: nat): Row
    requires sheet.Valid() && i < |sheet.rows|
  {
    if IsEmptyRow(sheet.rows[i]) then [] else CellsUpTo(sheet, i, |sheet.rows[i]|)
  }

  /** The row data of the first `n` rows, one per row. */
  function RowsUpTo(sheet: Sheet, n: nat): (rows: seq<Row>)
    requires sheet.Valid() && n <= |sheet.rows|
    ensures |rows| == n
  {
    if n == 0 then [] else RowsUpTo(sheet, n - 1) + [RowData(sheet, n - 1)]
  }

  /** Entry `i` of the row list is the data of row `i`. */
  lemma {:induction false} RowsUpToAt(sheet: Sheet, n: nat, i: nat)
    requires sheet.Valid() && i < n <= |sheet.rows|
    ensures RowsUpTo(sheet, n)[i] == RowData(sheet, i)
  {
    if i < n - 1 {
      RowsUpToAt(sheet, n - 1, i);
    }
  }

  function AllRows(sheet: Sheet): seq<Row>
    requires sheet.Valid()
  {
    RowsUpTo(sheet, |sheet.rows|)
  }

  // ----- Logo warnings -----

  /** `sheet.cell(row + 1, column).value`: no value outside the grid. */
  function BelowValue(sheet: Sheet, i: nat, j: nat): Option<Value>
  {
    if InGrid(sheet, i + 1, j) then sheet.rows[i + 1][j].value else None
  }

  function LogoWarning(below: Value, i: nat, j: nat): string
  {
    "**Logo Warning:** Data '" + Str(below) + "' in cell " + Coordinate(i + 2, j + 1)
      + " may be obscured by the Logo in " + Coordinate(i + 1, j + 1) + "."
  }

  /** A Logo cell (not a follower) whose cell below holds a truthy value. */
  predicate ObscuresBelow(sheet: Sheet, i: nat, j: nat)
    requires sheet.Valid() && InGrid(sheet, i, j)
  {
    !IsFollower(sheet, i, j) && IsLogo(sheet.rows[i][j].value)
      && BelowValue(sheet, i, j).Some? && Truthy(BelowValue(sheet, i, j).value)
  }

  function CellWarnings(sheet: Sheet, i: nat, j: nat): seq<string>
    requires sheet.Valid() && InGrid(sheet, i, j)
  {
    if ObscuresBelow(sheet, i, j) then [LogoWarning(BelowValue(sheet, i, j).value, i, j)] else []
  }

  function RowWarningsUpTo(sheet: Sheet, i: nat, n: nat): seq<string>
    requires sheet.Valid() && i < |sheet.rows| && n <= |sheet.rows[i]|
  {
    if n == 0 then [] else RowWarningsUpTo(sheet, i, n - 1) + CellWarnings(sheet, i, n - 1)
  }

  function RowWarnings(sheet: Sheet, i: nat): seq<string>
    requires sheet.Valid() && i < |sheet.rows|
  {
    if IsEmptyRow(sheet.rows[i]) then [] else RowWarningsUpTo(sheet, i, |sheet.rows[i]|)
  }

  function WarningsUpTo(sheet: Sheet, n: nat): seq<string>
    requires sheet.Valid() && n <= |sheet.rows|
  {
    if n == 0 then [] else WarningsUpTo(sheet, n - 1) + RowWarnings(sheet, n - 1)
  }

  function SheetWarnings(sheet: Sheet): seq<string>
    requires sheet.Valid()
  {
    WarningsUpTo(sheet, |sheet.rows|)
  }
}
