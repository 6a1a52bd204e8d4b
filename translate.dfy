/** The translation loop: walks the sheet row by row and cell by cell, builds
    each cell's attribute map step by step, collects the Logo warnings, and
    hands the row list to the emitter. Each method is proved to compute the
    descriptor functions of `Descriptors`. */
module Translate {
  import opened Wrappers
  import opened Seqs
  import opened Text
  import opened Values
  import opened Coords
  import opened Sheets
  import opened Colors
  import opened Yaml
  import opened Descriptors
  import DescriptorFacts

  /** `generate_yaml_from_file` once the workbook is decoded: one entry per
      row (`[]` for a blank row), then the emitter; the warnings in row and
      cell order. */
  method GenerateYaml(sheet: Sheet) returns (yaml: seq<string>, warnings: seq<string>)
    requires sheet.Valid()
    ensures yaml == YamlLines(AllRows(sheet))
    ensures warnings == SheetWarnings(sheet)
  {
    warnings := [];
    var allRowsData: seq<Row> := [];
    var i := 0;
    while i < |sheet.rows|
      invariant 0 <= i <= |sheet.rows|
      invariant allRowsData == RowsUpTo(sheet, i)
      invariant warnings == WarningsUpTo(sheet, i)
    {
      var rowData;
      rowData, warnings := TranslateSheetRow(sheet, i, warnings);
      allRowsData := allRowsData + [rowData];
      RowStep(sheet, i);
      i := i + 1;
    }
    DescriptorFacts.AllRowsWellFormed(sheet);
    yaml := BuildYamlString(allRowsData);
  }

  /** Scanning one more row appends its data and its warnings. */
  lemma RowStep(sheet: Sheet, i: nat)
    requires sheet.Valid() && i < |sheet.rows|
    ensures RowsUpTo(sheet, i + 1) == RowsUpTo(sheet, i) + [RowData(sheet, i)]
    ensures WarningsUpTo(sheet, i + 1) == WarningsUpTo(sheet, i) + RowWarnings(sheet, i)
  {
  }

  /** One pass of the row loop: a blank row gives `[]` and no warning; any
      other row is translated cell by cell. */
  method TranslateSheetRow(sheet: Sheet, i: nat, warnings: seq<string>) returns (rowData: Row, out: seq<string>)
    requires sheet.Valid() && i < |sheet.rows|
    ensures rowData == RowData(sheet, i)
    ensures out == warnings + RowWarnings(sheet, i)
  {
    var row := sheet.rows[i];
    var isEmptyRow := forall j :: 0 <= j < |row| ==> row[j].value.None? && !row[j].hasStyle;
    if isEmptyRow {
      rowData, out := [], warnings;
    } else {
      rowData, out := TranslateRow(sheet, i, warnings);
    }
  }

  method TranslateRow(sheet: Sheet, i: nat, warnings: seq<string>) returns (rowData: Row, out: seq<string>)
    requires sheet.Valid() && i < |sheet.rows|
    ensures rowData == CellsUpTo(sheet, i, |sheet.rows[i]|)
    ensures out == warnings + RowWarningsUpTo(sheet, i, |sheet.rows[i]|)
  {
    rowData := [];
    out := warnings;
    var j := 0;
    while j < |sheet.rows[i]|
      invariant 0 <= j <= |sheet.rows[i]|
      invariant rowData == CellsUpTo(sheet, i, j)
      invariant out == warnings + RowWarningsUpTo(sheet, i, j)
    {
      var cell;
      ghost var before := out;
      cell, out := TranslateCell(sheet, i, j, out);
      rowData := rowData + [cell];
      CellStep(sheet, i, j, warnings, before, out);
      j := j + 1;
    }
  }

  /** One turn of the cell loop extends the row data and the warnings by the
      cell's own. */
  lemma CellStep(sheet: Sheet, i: nat, j: nat, warnings: seq<string>, before: seq<string>, after: seq<string>)
    requires sheet.Valid() && i < |sheet.rows| && j < |sheet.rows[i]|
    requires before == warnings + RowWarningsUpTo(sheet, i, j)
    requires after == before + CellWarnings(sheet, i, j)
    ensures CellsUpTo(sheet, i, j + 1) == CellsUpTo(sheet, i, j) + [CellDescriptor(sheet, i, j)]
    ensures after == warnings + RowWarningsUpTo(sheet, i, j + 1)
  {
    AppendAssoc(warnings, RowWarningsUpTo(sheet, i, j), CellWarnings(sheet, i, j));
  }

  /** The body of the cell loop: follower test, merge key, value rules, style
      rules, and the collapse of an empty map to `None`. A Logo cell with a
      truthy value below it adds its warning. */
  method TranslateCell(sheet: Sheet, i: nat, j: nat, warnings: seq<string>) returns (cell: Option<CellMap>, out: seq<string>)
    requires sheet.Valid() && InGrid(sheet, i, j)
    ensures cell == CellDescriptor(sheet, i, j)
    ensures out == warnings + CellWarnings(sheet, i, j)
  {
    var range := GetMergedRange(sheet, i + 1, j + 1);
    assert range == RangeOf(sheet, i, j);
    if range.Some? && Coordinate(i + 1, j + 1) != FirstField(range.value.Coord()) {
      assert IsFollower(sheet, i, j);
      return None, warnings;
    }
    var cellObj;
    cellObj, out := BuildCellMap(sheet, i, j, range, warnings);
    if cellObj == [] {
      cell := None;
    } else {
      cell := Some(cellObj);
    }
  }

  /** The map of a cell that is not a follower: merge key, value rules, then
      style rules when the cell has a style. */
  method BuildCellMap(sheet: Sheet, i: nat, j: nat, range: Option<MergedRange>, warnings: seq<string>)
    returns (cellObj: CellMap, out: seq<string>)
    requires sheet.Valid() && InGrid(sheet, i, j)
    requires range == RangeOf(sheet, i, j) && !IsFollower(sheet, i, j)
    ensures cellObj == CellEntries(sheet, i, j)
    ensures out == warnings + CellWarnings(sheet, i, j)
  {
    var c := sheet.rows[i][j];
    cellObj := [];
    if range.Some? {
      cellObj := cellObj + [Merge(StrV(range.value.Coord()))];
    }
    ghost var mergePart := cellObj;
    cellObj, out := AppendValue(cellObj, sheet, i, j, warnings);
    ghost var valuePart := Collect(ValuePairs(c.value));
    ghost var stylePart := if c.hasStyle then Collect(StylePairs(c.style)) else [];
    if c.hasStyle {
      cellObj := AppendStyle(cellObj, c.style);
    }
    AppendAssoc(mergePart, valuePart, stylePart);
    DescriptorFacts.CollectAttrs(c);
    assert mergePart == MergeEntries(range);
    assert CellEntries(sheet, i, j) == MergeEntries(range) + Collect(AttrPairs(c));
  }

  /** The value rules of the cell loop: the `<Logo>` and `<placeholder>`
      sentinels, or the value copied as it is. */
  method AppendValue(obj: CellMap, sheet: Sheet, i: nat, j: nat, warnings: seq<string>) returns (out: CellMap, outWarnings: seq<string>)
    requires sheet.Valid() && InGrid(sheet, i, j)
    requires !IsFollower(sheet, i, j)
    ensures out == obj + Collect(ValuePairs(sheet.rows[i][j].value))
    ensures outWarnings == warnings + CellWarnings(sheet, i, j)
  {
    var value := sheet.rows[i][j].value;
    out := obj;
    outWarnings := warnings;
    if value.Some? {
      var text := Strip(Str(value.value));
      if text == LOGO_MARK {
        out := out + [Attr("type", StrV("logo"))];
        out := out + [Attr("value", BoolV(true))];
        var below := BelowValue(sheet, i, j);
        if below.Some? && Truthy(below.value) {
          outWarnings := outWarnings + [LogoWarning(below.value, i, j)];
        }
      } else if text == PLACEHOLDER_MARK {
        out := out + [Attr("type", StrV("expert"))];
        out := out + [Attr("value", StrV(PLACEHOLDER_CODE))];
      } else {
        out := out + [Attr("value", value.value)];
      }
    }
    DescriptorFacts.CollectTwo(ValuePairs(value));
  }

  /** The style rules of the cell loop, applied when the cell has a style. */
  method AppendStyle(obj: CellMap, style: Style) returns (out: CellMap)
    ensures out == obj + Collect(StylePairs(style))
  {
    out := AppendFont(obj, style.font);
    out := AppendFill(out, style.fill);
    out := AppendAlignment(out, style.alignment);
    out := AppendBorder(out, style.border);
    DescriptorFacts.CollectStyle(style);
    AppendAssoc4(obj, Collect(FontPairs(style.font)), Collect(FillPairs(style.fill)),
      Collect(AlignmentPairs(style.alignment)), Collect(BorderPairs(style.border)));
  }

  method AppendFont(obj: CellMap, font: Font) returns (out: CellMap)
    ensures out == obj + Collect(FontPairs(font))
  {
    out := obj;
    if font.bold {
      out := out + [Attr("bold", BoolV(true))];
    }
    assert out == obj + Opt(FontPairs(font)[0]);
    if Present(font.name) && Lower(font.name.value) != "calibri" {
      out := out + [Attr("font_name", StrV(Lower(font.name.value)))];
    }
    assert out == obj + Opt(FontPairs(font)[0]) + Opt(FontPairs(font)[1]);
    if font.size.Some? && font.size.value != 0 && font.size.value != 11 {
      out := out + [Attr("font_size", IntV(font.size.value))];
    }
    assert out == obj + Opt(FontPairs(font)[0]) + Opt(FontPairs(font)[1]) + Opt(FontPairs(font)[2]);
    ghost var before := out;
    if font.color.Some? && font.color.value.Rgb? {
      var fontColor := FormatColorHex(font.color.value.argb);
      if fontColor.Some? && Upper(fontColor.value) != BLACK {
        out := out + [Attr("font_color", StrV(fontColor.value))];
      }
    }
    assert out == before + Opt(FontPairs(font)[3]);
    DescriptorFacts.CollectFour(FontPairs(font));
    AppendAssoc4(obj, Opt(FontPairs(font)[0]), Opt(FontPairs(font)[1]), Opt(FontPairs(font)[2]), Opt(FontPairs(font)[3]));
  }

  method AppendFill(obj: CellMap, fill: Fill) returns (out: CellMap)
    ensures out == obj + Collect(FillPairs(fill))
  {
    out := obj;
    if fill.fillType == Some("solid") && fill.startColor.Rgb? {
      var bgColor := FormatColorHex(fill.startColor.argb);
      if bgColor.Some? && Upper(bgColor.value) != WHITE {
        out := out + [Attr("bg_color", StrV(bgColor.value))];
      }
    }
    DescriptorFacts.CollectOne(FillPairs(fill));
  }

  method AppendAlignment(obj: CellMap, alignment: Alignment) returns (out: CellMap)
    ensures out == obj + Collect(AlignmentPairs(alignment))
  {
    out := obj;
    if Present(alignment.horizontal) && alignment.horizontal.value != "left" {
      out := out + [Attr("align", StrV(alignment.horizontal.value))];
    }
    ghost var before := out;
    if Present(alignment.vertical) && alignment.vertical.value != "bottom" {
      out := out + [Attr("valign", StrV(if alignment.vertical.value == "center" then "vcenter" else alignment.vertical.value))];
    }
    assert out == before + Opt(AlignmentPairs(alignment)[1]);
    DescriptorFacts.CollectTwo(AlignmentPairs(alignment));
    AppendAssoc(obj, Opt(AlignmentPairs(alignment)[0]), Opt(AlignmentPairs(alignment)[1]));
  }

  method AppendBorder(obj: CellMap, border: Border) returns (out: CellMap)
    ensures out == obj + Collect(BorderPairs(border))
  {
    out := obj;
    if Present(border.left.style) || Present(border.right.style) || Present(border.top.style) || Present(border.bottom.style) {
      out := out + [Attr("border", IntV(1))];
      if border.left.color.Some? && border.left.color.value.Rgb? {
        var borderColor := FormatColorHex(border.left.color.value.argb);
        if borderColor.Some? && Upper(borderColor.value) != BLACK {
          out := out + [Attr("border_color", StrV(borderColor.value))];
        }
      }
    }
    DescriptorFacts.CollectTwo(BorderPairs(border));
  }
}
