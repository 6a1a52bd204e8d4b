/** The hand-written YAML emitter: scalar quoting and the fixed block layout of
    the `template.format.page_header` document. The document is modelled as its
    sequence of lines. */
module Yaml {
  import opened Wrappers
  import opened Seqs
  import opened Text
  import opened Values

  /** The value an `expert` cell carries; it is emitted without quotes. */
  const PLACEHOLDER_CODE: string := "return \"<placeholder>\""

  /** One key of a cell's attribute map, in insertion order. `merge` holds a
      nested map whose only key is `from_to`. */
  datatype Entry = Merge(fromTo: Value) | Attr(key: string, val: Value)
  {
    function Key(): string
    {
      if Merge? then "merge" else key
    }
  }

  /** A cell's attribute map, as its entries in insertion order. */
  type CellMap = seq<Entry>

  /** A row: one optional map per cell; the empty row stands for a blank row. */
  type Row = seq<Option<CellMap>>

  /** `format_yaml_value`: booleans lower-case, integers bare, the placeholder
      code bare, every other text in single quotes with nothing escaped. A
      rendering starts with a quote exactly when it is a quoted text. */
  function FormatValue(v: Value): (r: string)
    ensures r != []
    ensures r[0] == '\'' <==> v.StrV? && v.s != PLACEHOLDER_CODE
    ensures r[0] == '\'' ==> r == "'" + v.s + "'"
  {
    match v
    case BoolV(b) => if b then "true" else "false"
    case IntV(i) => IntToDecimal(i)
    case StrV(s) => if s == PLACEHOLDER_CODE then s else "'" + s + "'"
  }

  // ----- the lines of the document -----

  const TEMPLATE_LINE: string := "template:"
  const FORMAT_LINE: string := "    format:"
  const PAGE_HEADER_LINE: string := "        page_header:"
  const BLANK_ROW_LINE: string := "            - []"
  const ROW_START_LINE: string := "            -"
  const NULL_CELL_LINE: string := "                - null"
  const CELL_START_LINE: string := "                -"
  const MERGE_LINE: string := "                    merge:"
  const FROM_TO_PREFIX: string := "                        from_to: "
  const KEY_INDENT: string := "                    "

  const HEADER: seq<string> := [TEMPLATE_LINE, FORMAT_LINE, PAGE_HEADER_LINE]

  function EntryLines(e: Entry): seq<string>
  {
    match e
    case Merge(ft) => [MERGE_LINE, FROM_TO_PREFIX + FormatValue(ft)]
    case Attr(k, v) => [KEY_INDENT + k + ": " + FormatValue(v)]
  }

  function CellLines(c: Option<CellMap>): seq<string>
  {
    match c
    case None => [NULL_CELL_LINE]
    case Some(m) => [CELL_START_LINE] + FlatMap(EntryLines, m)
  }

  function RowLines(row: Row): seq<string>
  {
    if row == [] then [BLANK_ROW_LINE] else [ROW_START_LINE] + FlatMap(CellLines, row)
  }

  /** The whole document: the three header lines, the rows, and the trailing empty row. */
  function YamlLines(rows: seq<Row>): seq<string>
  {
    HEADER + FlatMap(RowLines, rows) + [BLANK_ROW_LINE]
  }

  /** What the emitter demands of its input: only the `merge` entry is a nested map. */
  predicate EmittableCell(c: Option<CellMap>)
  {
    c.Some? ==> forall e :: e in c.value && e.Attr? ==> e.key != "merge"
  }

  predicate EmittableRow(row: Row)
  {
    forall c :: c in row ==> EmittableCell(c)
  }

  /** `build_yaml_string`: appends the lines of each row, cell and key in turn. */
  method BuildYamlString(rows: seq<Row>) returns (lines: seq<string>)
    requires forall row :: row in rows ==> EmittableRow(row)
    ensures lines == YamlLines(rows)
  {
    lines := [TEMPLATE_LINE, FORMAT_LINE, PAGE_HEADER_LINE];
    var i := 0;
    while i < |rows|
      invariant 0 <= i <= |rows|
      invariant lines == HEADER + FlatMap(RowLines, rows[..i])
    {
      ghost var before := lines;
      lines := AppendRow(lines, rows[i]);
      ExtendBy(RowLines, rows, i, HEADER, before, lines);
      i := i + 1;
    }
    assert rows[..i] == rows;
    lines := lines + [BLANK_ROW_LINE];
  }

  /** The body of `build_yaml_string`'s loop over the rows: `- []` for a
      blank row, otherwise a row line followed by the lines of its cells. */
  method AppendRow(lines: seq<string>, row: Row) returns (out: seq<string>)
    requires EmittableRow(row)
    ensures out == lines + RowLines(row)
  {
    if row == [] {
      out := lines + [BLANK_ROW_LINE];
    } else {
      out := lines + [ROW_START_LINE];
      ghost var rowPrefix := out;
      var j := 0;
      assert row[..j] == [];
      while j < |row|
        invariant 0 <= j <= |row|
        invariant out == rowPrefix + FlatMap(CellLines, row[..j])
      {
        assert EmittableCell(row[j]);
        ghost var beforeCell := out;
        out := AppendCell(out, row[j]);
        ExtendBy(CellLines, row, j, rowPrefix, beforeCell, out);
        j := j + 1;
      }
      assert row[..j] == row;
      AppendAssoc(lines, [ROW_START_LINE], FlatMap(CellLines, row));
    }
  }

  /** The body of `build_yaml_string`'s loop over a row's cells: a `null`
      line, or a cell line followed by the lines of its keys. */
  method AppendCell(lines: seq<string>, cell: Option<CellMap>) returns (out: seq<string>)
    requires EmittableCell(cell)
    ensures out == lines + CellLines(cell)
  {
    if cell.None? {
      out := lines + [NULL_CELL_LINE];
    } else {
      out := AppendEntries(lines + [CELL_START_LINE], cell.value);
    }
  }

  /** The inner loop of `build_yaml_string` over one cell's keys: `merge`
      gives its own line and a `from_to` line, every other key one line. */
  method AppendEntries(lines: seq<string>, entries: CellMap) returns (out: seq<string>)
    requires EmittableCell(Some(entries))
    ensures out == lines + FlatMap(EntryLines, entries)
  {
    out := lines;
    var k := 0;
    while k < |entries|
      invariant 0 <= k <= |entries|
      invariant out == lines + FlatMap(EntryLines, entries[..k])
    {
      var e := entries[k];
      assert e.Attr? ==> e.key != "merge";
      ghost var beforeEntry := out;
      if e.Key() == "merge" {
        out := out + [MERGE_LINE];
        out := out + [FROM_TO_PREFIX + FormatValue(e.fromTo)];
      } else {
        out := out + [KEY_INDENT + e.Key() + ": " + FormatValue(e.val)];
      }
      ExtendBy(EntryLines, entries, k, lines, beforeEntry, out);
      k := k + 1;
    }
    assert entries[..k] == entries;
  }

  /** One step of the emitter's loops: the lines of the next element follow the
      lines of the elements before it. */
  lemma ExtendBy<A>(f: A -> seq<string>, xs: seq<A>, k: nat, prefix: seq<string>, before: seq<string>, after: seq<string>)
    requires k < |xs|
    requires before == prefix + FlatMap(f, xs[..k])
    requires after == before + f(xs[k])
    ensures after == prefix + FlatMap(f, xs[..k + 1])
  {
    assert xs[..k + 1] == xs[..k] + [xs[k]];
    FlatMapSnoc(f, xs[..k], xs[k]);
  }

  /** Whatever the rows, the document opens with the three header lines and
      closes with the mandatory empty row. */
  lemma DocumentFrame(rows: seq<Row>)
    ensures |YamlLines(rows)| >= 4
    ensures YamlLines(rows)[..3] == [TEMPLATE_LINE, FORMAT_LINE, PAGE_HEADER_LINE]
    ensures YamlLines(rows)[|YamlLines(rows)| - 1] == BLANK_ROW_LINE
  {
  }

  /** The number of lines a row contributes: one for a blank row; otherwise one
      for the row, one per cell, one per key and one more per `merge` key. */
  function RowLineCount(row: Row): nat
  {
    if row == [] then 1 else 1 + |row| + KeyLineCount(row)
  }

  /** The key lines of a list of cells: one per key, plus one per `merge` key. */
  function KeyLineCount(cells: seq<Option<CellMap>>): nat
  {
    if cells == [] then 0
    else (if cells[0].None? then 0 else |cells[0].value| + MergeCount(cells[0].value)) + KeyLineCount(cells[1..])
  }

  function MergeCount(m: CellMap): nat
  {
    if m == [] then 0 else (if m[0].Merge? then 1 else 0) + MergeCount(m[1..])
  }

  lemma {:induction false} EntriesLineCount(m: CellMap)
    ensures |FlatMap(EntryLines, m)| == |m| + MergeCount(m)
  {
    if m != [] {
      EntriesLineCount(m[1..]);
    }
  }

  lemma {:induction false} CellsLineCount(cells: seq<Option<CellMap>>)
    ensures |FlatMap(CellLines, cells)| == |cells| + KeyLineCount(cells)
  {
    if cells != [] {
      CellsLineCount(cells[1..]);
      if cells[0].Some? {
        EntriesLineCount(cells[0].value);
      }
    }
  }

  lemma RowLineCountIsExact(row: Row)
    ensures |RowLines(row)| == RowLineCount(row)
  {
    if row != [] {
      CellsLineCount(row);
    }
  }
}
