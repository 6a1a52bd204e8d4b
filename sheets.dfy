/** The decoded worksheet the translator reads: a grid of cells with their
    values and style snapshots, and the list of merged ranges. The grid starts
    at A1: the cell at `rows[i][j]` is at row `i + 1`, column `j + 1`. */
module Sheets {
  import opened Wrappers
  import opened Values
  import Coords

  /** A colour reference: a direct ARGB value, or a theme/indexed reference. */
  datatype Color = Rgb(argb: string) | NotRgb

  datatype Font = Font(bold: bool, name: Option<string>, size: Option<int>, color: Option<Color>)

  datatype Fill = Fill(fillType: Option<string>, startColor: Color)

  datatype Alignment = Alignment(horizontal: Option<string>, vertical: Option<string>)

  datatype Side = Side(style: Option<string>, color: Option<Color>)

  datatype Border = Border(left: Side, right: Side, top: Side, bottom: Side)

  datatype Style = Style(font: Font, fill: Fill, alignment: Alignment, border: Border)

  /** A cell: its value (absent for an empty cell), whether the decoder reports
      any style on it, and the style snapshot. */
  datatype Cell = Cell(value: Option<Value>, hasStyle: bool, style: Style)

  /** An inclusive rectangle of 1-based rows and columns. */
  datatype MergedRange = MergedRange(minRow: nat, minCol: nat, maxRow: nat, maxCol: nat)
  {
    predicate Valid()
    {
      1 <= minRow <= maxRow && 1 <= minCol <= maxCol
    }

    predicate Contains(row: nat, col: nat)
    {
      minRow <= row <= maxRow && minCol <= col <= maxCol
    }

    /** The range's coordinate, e.g. `A1:C1`. */
    function Coord(): string
      requires Valid()
    {
      Coords.RangeCoordinate(minRow, minCol, maxRow, maxCol)
    }
  }

  datatype Sheet = Sheet(rows: seq<seq<Cell>>, merged: seq<MergedRange>)
  {
    /** What the decoder guarantees: every merged range is a proper rectangle. */
    predicate Valid()
    {
      forall m :: m in merged ==> m.Valid()
    }
  }

  /** Python truthiness of an optional text attribute (`None` and `''` are false). */
  predicate Present(s: Option<string>)
  {
    s.Some? && s.value != ""
  }

  /** The first range of the list that contains the cell, or `None` when none does. */
  function FirstRange(ranges: seq<MergedRange>, row: nat, col: nat): Option<MergedRange>
  {
    if ranges == [] then None
    else if ranges[0].Contains(row, col) then Some(ranges[0])
    else FirstRange(ranges[1..], row, col)
  }

  /** `None` exactly when no range contains the cell; otherwise a range of the
      list that contains it, with no earlier range containing it. */
  lemma {:induction false} FirstRangeSpec(ranges: seq<MergedRange>, row: nat, col: nat)
    ensures FirstRange(ranges, row, col).None? <==> forall k :: 0 <= k < |ranges| ==> !ranges[k].Contains(row, col)
    ensures FirstRange(ranges, row, col).Some? ==> exists k :: (0 <= k < |ranges|
      && ranges[k] == FirstRange(ranges, row, col).value && ranges[k].Contains(row, col)
      && forall p :: 0 <= p < k ==> !ranges[p].Contains(row, col))
  {
    if ranges != [] && !ranges[0].Contains(row, col) {
      FirstRangeSpec(ranges[1..], row, col);
      var r := FirstRange(ranges[1..], row, col);
      if r.Some? {
        var k :| 0 <= k < |ranges[1..]| && ranges[1..][k] == r.value
          && ranges[1..][k].Contains(row, col) && forall p :: 0 <= p < k ==> !ranges[1..][p].Contains(row, col);
        assert ranges[k + 1] == r.value;
        forall p | 0 <= p < k + 1 ensures !ranges[p].Contains(row, col) {
          if p > 0 { assert ranges[p] == ranges[1..][p - 1]; }
        }
      } else {
        forall k | 0 <= k < |ranges| ensures !ranges[k].Contains(row, col) {
          if k > 0 { assert ranges[k] == ranges[1..][k - 1]; }
        }
      }
    }
  }

  /** The range found is one of the list's ranges. */
  lemma FirstRangeIn(ranges: seq<MergedRange>, row: nat, col: nat)
    ensures FirstRange(ranges, row, col).Some? ==> FirstRange(ranges, row, col).value in ranges
  {
    FirstRangeSpec(ranges, row, col);
  }

  /** Looks up the merged range a cell belongs to, scanning the sheet's ranges
      in order and stopping at the first that contains the cell. */
  method GetMergedRange(sheet: Sheet, row: nat, col: nat) returns (r: Option<MergedRange>)
    ensures r == FirstRange(sheet.merged, row, col)
  {
    var k := 0;
    while k < |sheet.merged|
      invariant 0 <= k <= |sheet.merged|
      invariant FirstRange(sheet.merged, row, col) == FirstRange(sheet.merged[k..], row, col)
    {
      if sheet.merged[k].Contains(row, col) {
        return Some(sheet.merged[k]);
      }
      assert sheet.merged[k..][1..] == sheet.merged[k + 1..];
      k := k + 1;
    }
    return None;
  }

  /** No two ranges of the list share a cell. */
  ghost predicate Disjoint(ranges: seq<MergedRange>)
  {
    forall p, q :: 0 <= p < q < |ranges| ==>
      !exists r, c :: ranges[p].Contains(r, c) && ranges[q].Contains(r, c)
  }

  /** When no two ranges overlap, the range found is the only one that contains
      the cell, whatever the order of the list. */
  lemma DisjointRangesFound(ranges: seq<MergedRange>, row: nat, col: nat, k: nat)
    requires Disjoint(ranges)
    requires k < |ranges| && ranges[k].Contains(row, col)
    ensures FirstRange(ranges, row, col) == Some(ranges[k])
  {
    FirstRangeSpec(ranges, row, col);
    var r := FirstRange(ranges, row, col);
    var p :| 0 <= p < |ranges| && ranges[p] == r.value && ranges[p].Contains(row, col)
      && forall q :: 0 <= q < p ==> !ranges[q].Contains(row, col);
  }
}
