/** Worked examples of the translator on small sheets: a styled total, a Logo
    with text under it, a horizontal merge, and an expert placeholder. */
module Scenarios {
  import opened Wrappers
  import opened Seqs
  import opened Text
  import opened Values
  import opened Coords
  import opened Sheets
  import opened Yaml
  import opened Descriptors
  import opened DescriptorFacts

  const NO_SIDE: Side := Side(None, None)

  /** A style on which every rule is silent. */
  const PLAIN: Style := Style(Font(false, None, None, None), Fill(None, NotRgb), Alignment(None, None),
    Border(NO_SIDE, NO_SIDE, NO_SIDE, NO_SIDE))

  /** A cell holding a text, reported without a style. */
  function TextCell(s: string): Cell
  {
    Cell(Some(StrV(s)), false, PLAIN)
  }

  const EMPTY_CELL: Cell := Cell(None, false, PLAIN)

  // ----- small steps shared by the examples -----

  lemma CoordinatesA1A2C1()
    ensures Coordinate(1, 1) == "A1" && Coordinate(2, 1) == "A2" && Coordinate(1, 3) == "C1"
  {
    assert NatToDecimal(1) == "1" && NatToDecimal(2) == "2";
    assert ColumnLetters(1) == "A" && ColumnLetters(3) == "C";
  }

  lemma Unpadded(m: string)
    requires m != [] && !IsSpace(m[0]) && !IsSpace(m[|m| - 1])
    ensures Strip(m) == m
  {
    StripPadded([], m, []);
    assert [] + m + [] == m;
  }

  /** A sheet of one row that is not blank yields that row's cell descriptors. */
  lemma OneRow(sheet: Sheet)
    requires sheet.Valid() && |sheet.rows| == 1 && !IsEmptyRow(sheet.rows[0])
    ensures AllRows(sheet) == [CellsUpTo(sheet, 0, |sheet.rows[0]|)]
  {
    assert AllRows(sheet) == RowsUpTo(sheet, 1) == RowsUpTo(sheet, 0) + [RowData(sheet, 0)];
    assert RowData(sheet, 0) == CellsUpTo(sheet, 0, |sheet.rows[0]|);
  }

  /** Without merged ranges a cell is never a follower and its map is built
      from its own rules. */
  lemma Unmerged(sheet: Sheet, i: nat, j: nat)
    requires sheet.Valid() && InGrid(sheet, i, j) && sheet.merged == []
    ensures !IsFollower(sheet, i, j)
    ensures CellEntries(sheet, i, j) == Collect(AttrPairs(sheet.rows[i][j]))
  {
    assert RangeOf(sheet, i, j) == None;
  }

  lemma OneCellLines(m: CellMap)
    ensures YamlLines([[Some(m)]]) == HEADER + [ROW_START_LINE, CELL_START_LINE] + FlatMap(EntryLines, m) + [BLANK_ROW_LINE]
  {
    FlatMapSnoc(CellLines, [], Some(m));
    assert [] + [Some(m)] == [Some(m)];
    FlatMapSnoc(RowLines, [], [Some(m)]);
    assert [] + [[Some(m)]] == [[Some(m)]];
  }

  // ----- a bold total -----

  const TOTAL_FONT: Font := Font(true, None, Some(14), None)
  const TOTAL_CELL: Cell := Cell(Some(StrV("Total")), true, PLAIN.(font := TOTAL_FONT))

  lemma TotalStyle()
    ensures Collect(StylePairs(TOTAL_CELL.style)) == [Attr("bold", BoolV(true)), Attr("font_size", IntV(14))]
  {
    var s := TOTAL_CELL.style;
    CollectStyle(s);
    CollectFour(FontPairs(s.font));
    CollectOne(FillPairs(s.fill));
    CollectTwo(AlignmentPairs(s.alignment));
    CollectTwo(BorderPairs(s.border));
  }

  lemma TotalEntries()
    ensures Collect(AttrPairs(TOTAL_CELL)) == [Attr("value", StrV("Total")), Attr("bold", BoolV(true)), Attr("font_size", IntV(14))]
  {
    Unpadded("Total");
    CollectAttrs(TOTAL_CELL);
    CollectTwo(ValuePairs(TOTAL_CELL.value));
    TotalStyle();
  }

  /** A single bold cell of size 14 holding `Total`: the value, then `bold`,
      then `font_size`, and nothing for the default name or colours. */
  lemma StyledTotal()
    ensures AllRows(Sheet([[TOTAL_CELL]], [])) ==
      [[Some([Attr("value", StrV("Total")), Attr("bold", BoolV(true)), Attr("font_size", IntV(14))])]]
  {
    var sheet := Sheet([[TOTAL_CELL]], []);
    assert sheet.rows[0][0].value.Some?;
    OneRow(sheet);
    Unmerged(sheet, 0, 0);
    TotalEntries();
    assert CellDescriptor(sheet, 0, 0) == Some([Attr("value", StrV("Total")), Attr("bold", BoolV(true)), Attr("font_size", IntV(14))]);
    assert CellsUpTo(sheet, 0, 1) == CellsUpTo(sheet, 0, 0) + [CellDescriptor(sheet, 0, 0)];
    assert AllRows(sheet) == [CellsUpTo(sheet, 0, 1)];
    assert CellsUpTo(sheet, 0, 1) == [CellDescriptor(sheet, 0, 0)];
  }

  // ----- a Logo over text -----

  const LOGO_SHEET: Sheet := Sheet([[TextCell("<Logo>")], [TextCell("Don't put text here")]], [])

  /** The message names the text and both cells by their spreadsheet coordinates. */
  lemma LogoWarningText()
    ensures LogoWarning(StrV("Don't put text here"), 0, 0) ==
      "**Logo Warning:** Data '" + "Don't put text here" + "' in cell " + "A2" + " may be obscured by the Logo in " + "A1" + "."
  {
    CoordinatesA1A2C1();
  }

  /** The Logo in A1 is flagged, citing the text below it. */
  lemma LogoCellFlagged()
    ensures CellWarnings(LOGO_SHEET, 0, 0) == [LogoWarning(StrV("Don't put text here"), 0, 0)]
  {
    Unpadded("<Logo>");
    Unmerged(LOGO_SHEET, 0, 0);
    assert BelowValue(LOGO_SHEET, 0, 0) == Some(StrV("Don't put text here"));
  }

  /** The text in A2 is not a Logo, and nothing lies below it. */
  lemma TextCellQuiet()
    ensures CellWarnings(LOGO_SHEET, 1, 0) == []
  {
    Unpadded("Don't put text here");
  }

  lemma LogoRowWarnings()
    ensures RowWarnings(LOGO_SHEET, 0) == [LogoWarning(StrV("Don't put text here"), 0, 0)]
    ensures RowWarnings(LOGO_SHEET, 1) == []
  {
    LogoCellFlagged();
    TextCellQuiet();
    assert RowWarningsUpTo(LOGO_SHEET, 0, 1) == RowWarningsUpTo(LOGO_SHEET, 0, 0) + CellWarnings(LOGO_SHEET, 0, 0);
    assert RowWarningsUpTo(LOGO_SHEET, 1, 1) == RowWarningsUpTo(LOGO_SHEET, 1, 0) + CellWarnings(LOGO_SHEET, 1, 0);
  }

  /** A Logo in A1 over text in A2 raises one warning naming both cells. */
  lemma LogoOverText()
    ensures SheetWarnings(LOGO_SHEET) ==
      ["**Logo Warning:** Data '" + "Don't put text here" + "' in cell " + "A2" + " may be obscured by the Logo in " + "A1" + "."]
  {
    LogoRowWarnings();
    LogoWarningText();
    assert WarningsUpTo(LOGO_SHEET, 2) == WarningsUpTo(LOGO_SHEET, 1) + RowWarnings(LOGO_SHEET, 1);
    assert WarningsUpTo(LOGO_SHEET, 1) == WarningsUpTo(LOGO_SHEET, 0) + RowWarnings(LOGO_SHEET, 0);
  }

  // ----- a horizontal merge -----

  const HEADER_RANGE: MergedRange := MergedRange(1, 1, 1, 3)
  const MERGE_SHEET: Sheet := Sheet([[TextCell("Header"), EMPTY_CELL, EMPTY_CELL]], [HEADER_RANGE])

  lemma HeaderRangeFound(j: nat)
    requires j < 3
    ensures RangeOf(MERGE_SHEET, 0, j) == Some(HEADER_RANGE)
    ensures HEADER_RANGE.Coord() == "A1:C1"
    ensures FirstField(HEADER_RANGE.Coord()) == "A1"
  {
    CoordinatesA1A2C1();
    RangeFirstField(1, 1, 1, 3);
  }

  lemma HeaderLeader()
    ensures !IsFollower(MERGE_SHEET, 0, 0)
    ensures CellDescriptor(MERGE_SHEET, 0, 0) == Some([Merge(StrV("A1:C1")), Attr("value", StrV("Header"))])
  {
    HeaderRangeFound(0);
    CoordinatesA1A2C1();
    Unpadded("Header");
    var c := MERGE_SHEET.rows[0][0];
    CollectAttrs(c);
    CollectTwo(ValuePairs(Some(StrV("Header"))));
    assert Collect(AttrPairs(c)) == [Attr("value", StrV("Header"))];
    assert MergeEntries(RangeOf(MERGE_SHEET, 0, 0)) == [Merge(StrV("A1:C1"))];
    assert CellEntries(MERGE_SHEET, 0, 0) == [Merge(StrV("A1:C1")), Attr("value", StrV("Header"))];
  }

  lemma HeaderFollowers()
    ensures IsFollower(MERGE_SHEET, 0, 1) && IsFollower(MERGE_SHEET, 0, 2)
  {
    HeaderRangeFound(1);
    HeaderRangeFound(2);
    CoordinatesA1A2C1();
    CoordinateInjective(1, 2, 1, 1);
    CoordinateInjective(1, 3, 1, 1);
  }

  lemma HeaderCells()
    ensures CellsUpTo(MERGE_SHEET, 0, 3) == [Some([Merge(StrV("A1:C1")), Attr("value", StrV("Header"))]), None, None]
  {
    var sheet := MERGE_SHEET;
    HeaderLeader();
    HeaderFollowers();
    assert CellDescriptor(sheet, 0, 1) == None && CellDescriptor(sheet, 0, 2) == None;
    assert CellsUpTo(sheet, 0, 1) == [CellDescriptor(sheet, 0, 0)];
    assert CellsUpTo(sheet, 0, 2) == CellsUpTo(sheet, 0, 1) + [CellDescriptor(sheet, 0, 1)];
    assert CellsUpTo(sheet, 0, 3) == CellsUpTo(sheet, 0, 2) + [CellDescriptor(sheet, 0, 2)];
  }

  /** `Header` merged over A1:C1: the leader carries the range and the value,
      the two followers are `null`. */
  lemma HorizontalMerge()
    ensures AllRows(MERGE_SHEET) == [[Some([Merge(StrV("A1:C1")), Attr("value", StrV("Header"))]), None, None]]
  {
    assert MERGE_SHEET.rows[0][0].value.Some?;
    OneRow(MERGE_SHEET);
    HeaderCells();
  }

  // ----- an expert placeholder -----

  const PLACEHOLDER_SHEET: Sheet := Sheet([[TextCell("<placeholder>")]], [])
  const EXPERT_MAP: CellMap := [Attr("type", StrV("expert")), Attr("value", StrV(PLACEHOLDER_CODE))]

  lemma ExpertTypeLine()
    ensures EntryLines(EXPERT_MAP[0]) == [KEY_INDENT + "type: 'expert'"]
  {
    assert KEY_INDENT + "type" + ": " + FormatValue(StrV("expert")) == KEY_INDENT + "type: 'expert'";
  }

  /** The placeholder code is emitted bare, without quotes. */
  lemma ExpertValueLine()
    ensures EntryLines(EXPERT_MAP[1]) == [KEY_INDENT + "value: return \"<placeholder>\""]
  {
    assert FormatValue(StrV(PLACEHOLDER_CODE)) == PLACEHOLDER_CODE;
    assert "value" + ": " + PLACEHOLDER_CODE == "value: return \"<placeholder>\"";
    AppendAssoc(KEY_INDENT, "value", ": ");
    AppendAssoc(KEY_INDENT, "value" + ": ", PLACEHOLDER_CODE);
  }

  lemma ExpertLines()
    ensures FlatMap(EntryLines, EXPERT_MAP) == [KEY_INDENT + "type: 'expert'", KEY_INDENT + "value: return \"<placeholder>\""]
  {
    ExpertTypeLine();
    ExpertValueLine();
    FlatMapCons(EntryLines, EXPERT_MAP[0], [EXPERT_MAP[1]]);
    FlatMapCons(EntryLines, EXPERT_MAP[1], []);
    assert EXPERT_MAP == [EXPERT_MAP[0]] + [EXPERT_MAP[1]];
    assert [EXPERT_MAP[1]] == [EXPERT_MAP[1]] + [];
  }

  lemma PlaceholderRows()
    ensures AllRows(PLACEHOLDER_SHEET) == [[Some(EXPERT_MAP)]]
  {
    var sheet := PLACEHOLDER_SHEET;
    assert sheet.rows[0][0].value.Some?;
    OneRow(sheet);
    Unmerged(sheet, 0, 0);
    Unpadded("<placeholder>");
    CollectTwo(ValuePairs(Some(StrV("<placeholder>"))));
    CollectAttrs(sheet.rows[0][0]);
    assert Collect(AttrPairs(sheet.rows[0][0])) == EXPERT_MAP;
    assert CellDescriptor(sheet, 0, 0) == Some(EXPERT_MAP);
    assert CellsUpTo(sheet, 0, 1) == CellsUpTo(sheet, 0, 0) + [CellDescriptor(sheet, 0, 0)];
    assert AllRows(sheet) == [CellsUpTo(sheet, 0, 1)];
    assert CellsUpTo(sheet, 0, 1) == [CellDescriptor(sheet, 0, 0)];
  }

  /** A cell holding `<placeholder>` becomes an `expert` cell whose code is
      emitted bare. */
  lemma PlaceholderCell()
    ensures AllRows(PLACEHOLDER_SHEET) == [[Some(EXPERT_MAP)]]
    ensures YamlLines(AllRows(PLACEHOLDER_SHEET)) == HEADER + [ROW_START_LINE, CELL_START_LINE,
      KEY_INDENT + "type: 'expert'", KEY_INDENT + "value: return \"<placeholder>\"", BLANK_ROW_LINE]
  {
    PlaceholderRows();
    OneCellLines(EXPERT_MAP);
    ExpertLines();
  }
}
