/** A reader for the documents the emitter writes. It is the emitter's
    partner: reading back the lines of any row list gives that row list, so
    the emitted layout and quoting lose nothing. */
module YamlParse {
  import opened Wrappers
  import opened Seqs
  import opened Text
  import opened Values
  import opened Yaml

  /** What one line of a document is. */
  datatype LineKind =
    | BlankRowL
    | RowStartL
    | NullCellL
    | CellStartL
    | MergeL
    | FromToL(text: string)
    | KeyValueL(key: string, text: string)
    | OtherL

  predicate IsKeyChar(c: char)
  {
    'a' <= c <= 'z' || c == '_'
  }

  /** The keys a cell map may use: non-empty, lower-case letters and `_`. */
  predicate ValidKey(k: string)
  {
    k != [] && forall i :: 0 <= i < |k| ==> IsKeyChar(k[i])
  }

  predicate HasPrefix(s: string, p: string)
  {
    |p| <= |s| && s[..|p|] == p
  }

  /** The length of the longest prefix made of key characters. */
  function KeyLength(s: string): (n: nat)
    ensures n <= |s|
  {
    if s != [] && IsKeyChar(s[0]) then 1 + KeyLength(s[1..]) else 0
  }

  lemma {:induction false} KeyLengthOf(k: string, rest: string)
    requires forall i :: 0 <= i < |k| ==> IsKeyChar(k[i])
    requires rest == [] || !IsKeyChar(rest[0])
    ensures KeyLength(k + rest) == |k|
  {
    if k != [] {
      assert (k + rest)[1..] == k[1..] + rest;
      KeyLengthOf(k[1..], rest);
    }
  }

  /** Splits `key: text` at the colon that ends the key. */
  function SplitKey(s: string): Option<(string, string)>
  {
    var n := KeyLength(s);
    if n > 0 && n + 2 <= |s| && s[n] == ':' && s[n + 1] == ' ' then Some((s[..n], s[n + 2..])) else None
  }

  function Classify(s: string): LineKind
  {
    if HasPrefix(s, FROM_TO_PREFIX) then FromToL(s[|FROM_TO_PREFIX|..])
    else if HasPrefix(s, KEY_INDENT) && SplitKey(s[|KEY_INDENT|..]).Some? then
      var kv := SplitKey(s[|KEY_INDENT|..]).value;
      KeyValueL(kv.0, kv.1)
    else if s == BLANK_ROW_LINE then BlankRowL
    else if s == ROW_START_LINE then RowStartL
    else if s == NULL_CELL_LINE then NullCellL
    else if s == CELL_START_LINE then CellStartL
    else if s == MERGE_LINE then MergeL
    else OtherL
  }

  /** Reads back a scalar that `FormatValue` wrote. */
  function ParseValue(t: string): Option<Value>
  {
    if t == "true" then Some(BoolV(true))
    else if t == "false" then Some(BoolV(false))
    else if t == PLACEHOLDER_CODE then Some(StrV(PLACEHOLDER_CODE))
    else if |t| >= 2 && t[0] == '\'' && t[|t| - 1] == '\'' then Some(StrV(t[1..|t| - 1]))
    else match ParseInt(t)
      case Some(i) => Some(IntV(i))
      case None => None
  }

  /** Reads the keys of one cell map; stops at the first line that is not a key. */
  function ParseEntries(ls: seq<string>): (r: Option<(CellMap, seq<string>)>)
    ensures r.Some? ==> |r.value.1| <= |ls|
    decreases |ls|
  {
    if ls == [] then Some(([], ls))
    else
      var kind := Classify(ls[0]);
      if kind.MergeL? then
        if |ls| >= 2 && Classify(ls[1]).FromToL? && ParseValue(Classify(ls[1]).text).Some? then
          var more := ParseEntries(ls[2..]);
          if more.None? then None
          else Some(([Merge(ParseValue(Classify(ls[1]).text).value)] + more.value.0, more.value.1))
        else None
      else if kind.KeyValueL? then
        if ParseValue(kind.text).Some? then
          var more := ParseEntries(ls[1..]);
          if more.None? then None
          else Some(([Attr(kind.key, ParseValue(kind.text).value)] + more.value.0, more.value.1))
        else None
      else Some(([], ls))
  }

  /** Reads the cells of one row; stops at the first line that is not a cell. */
  function ParseCells(ls: seq<string>): (r: Option<(Row, seq<string>)>)
    ensures r.Some? ==> |r.value.1| <= |ls|
    decreases |ls|
  {
    if ls == [] then Some(([], ls))
    else
      var kind := Classify(ls[0]);
      if kind.NullCellL? then
        var more := ParseCells(ls[1..]);
        if more.None? then None else Some(([None] + more.value.0, more.value.1))
      else if kind.CellStartL? then
        var map1 := ParseEntries(ls[1..]);
        if map1.None? then None
        else
          var more := ParseCells(map1.value.1);
          if more.None? then None else Some(([Some(map1.value.0)] + more.value.0, more.value.1))
      else Some(([], ls))
  }

  /** Reads a list of rows that must take up all the lines. */
  function ParseRows(ls: seq<string>): Option<seq<Row>>
    decreases |ls|
  {
    if ls == [] then Some([])
    else
      var kind := Classify(ls[0]);
      if kind.BlankRowL? then
        var more := ParseRows(ls[1..]);
        if more.None? then None else Some([[]] + more.value)
      else if kind.RowStartL? then
        var cells := ParseCells(ls[1..]);
        if cells.None? then None
        else
          var more := ParseRows(cells.value.1);
          if more.None? then None else Some([cells.value.0] + more.value)
      else None
  }

  /** Reads a whole document: the header, the rows, and the trailing empty row. */
  function ParseYaml(lines: seq<string>): Option<seq<Row>>
  {
    if |lines| >= 4 && lines[..3] == HEADER && lines[|lines| - 1] == BLANK_ROW_LINE then
      ParseRows(lines[3..|lines| - 1])
    else None
  }

  // ----- the round trip -----

  lemma ValueRoundTrip(v: Value)
    ensures ParseValue(FormatValue(v)) == Some(v)
  {
    var t := FormatValue(v);
    match v
    case BoolV(b) =>
    case IntV(i) =>
      assert t[0] != 't' && t[0] != 'f' && t[0] != 'r' && t[0] != '\'';
      assert "true"[0] == 't' && "false"[0] == 'f' && PLACEHOLDER_CODE[0] == 'r';
      IntRoundTrip(i);
    case StrV(s) =>
      if s != PLACEHOLDER_CODE {
        assert t[0] == '\'';
        assert "true"[0] == 't' && "false"[0] == 'f' && PLACEHOLDER_CODE[0] == 'r';
        assert t[1..|t| - 1] == s;
      }
  }

  lemma ClassifyBlankRow()
    ensures Classify(BLANK_ROW_LINE) == BlankRowL
  {
  }

  lemma ClassifyRowStart()
    ensures Classify(ROW_START_LINE) == RowStartL
  {
  }

  lemma ClassifyNullCell()
    ensures Classify(NULL_CELL_LINE) == NullCellL
  {
    assert NULL_CELL_LINE[16] == '-' && KEY_INDENT[16] == ' ';
    assert !HasPrefix(NULL_CELL_LINE, KEY_INDENT);
  }

  lemma ClassifyCellStart()
    ensures Classify(CELL_START_LINE) == CellStartL
  {
  }

  lemma ClassifyMerge()
    ensures Classify(MERGE_LINE) == MergeL
  {
    assert MERGE_LINE[..|KEY_INDENT|] == KEY_INDENT;
    assert MERGE_LINE[|KEY_INDENT|..] == "merge" + ":";
    KeyLengthOf("merge", ":");
  }

  lemma ClassifyFromTo(t: string)
    ensures Classify(FROM_TO_PREFIX + t) == FromToL(t)
  {
    assert (FROM_TO_PREFIX + t)[..|FROM_TO_PREFIX|] == FROM_TO_PREFIX;
  }

  lemma ClassifyKeyValue(k: string, t: string)
    requires ValidKey(k)
    ensures Classify(KEY_INDENT + k + ": " + t) == KeyValueL(k, t)
  {
    var s := KEY_INDENT + k + ": " + t;
    var rest := k + (": " + t);
    AppendAssoc(KEY_INDENT + k, ": ", t);
    AppendAssoc(KEY_INDENT, k, ": " + t);
    assert s == KEY_INDENT + rest;
    assert s[..|KEY_INDENT|] == KEY_INDENT && s[|KEY_INDENT|..] == rest;
    assert s[|KEY_INDENT|] == k[0];
    assert FROM_TO_PREFIX[|KEY_INDENT|] == ' ';
    assert |s| < |FROM_TO_PREFIX| || s[..|FROM_TO_PREFIX|][|KEY_INDENT|] == k[0];
    KeyLengthOf(k, ": " + t);
    assert rest[..|k|] == k && rest[|k| + 2..] == t;
  }

  predicate ValidCellMap(m: CellMap)
  {
    forall e :: e in m && e.Attr? ==> ValidKey(e.key)
  }

  predicate ValidRow(row: Row)
  {
    forall c :: c in row && c.Some? ==> ValidCellMap(c.value)
  }

  /** Lines that end a cell map: none left, or a line that is not a key. */
  predicate EndsMap(rest: seq<string>)
  {
    rest == [] || !(Classify(rest[0]).MergeL? || Classify(rest[0]).KeyValueL?)
  }

  /** Lines that end a row: none left, or the start of another row. */
  predicate EndsRow(rest: seq<string>)
  {
    rest == [] || Classify(rest[0]) == BlankRowL || Classify(rest[0]) == RowStartL
  }

  // One step of each reader, for a first line whose kind is known.

  lemma EntriesMergeStep(ls: seq<string>, v: Value)
    requires |ls| >= 2 && Classify(ls[0]) == MergeL && Classify(ls[1]) == FromToL(FormatValue(v))
    requires ParseValue(FormatValue(v)) == Some(v)
    requires ParseEntries(ls[2..]).Some?
    ensures ParseEntries(ls) == Some(([Merge(v)] + ParseEntries(ls[2..]).value.0, ParseEntries(ls[2..]).value.1))
  {
  }

  lemma EntriesAttrStep(ls: seq<string>, k: string, v: Value)
    requires |ls| >= 1 && Classify(ls[0]) == KeyValueL(k, FormatValue(v))
    requires ParseValue(FormatValue(v)) == Some(v)
    requires ParseEntries(ls[1..]).Some?
    ensures ParseEntries(ls) == Some(([Attr(k, v)] + ParseEntries(ls[1..]).value.0, ParseEntries(ls[1..]).value.1))
  {
  }

  lemma CellsNullStep(ls: seq<string>)
    requires |ls| >= 1 && Classify(ls[0]) == NullCellL
    requires ParseCells(ls[1..]).Some?
    ensures ParseCells(ls) == Some(([None] + ParseCells(ls[1..]).value.0, ParseCells(ls[1..]).value.1))
  {
  }

  lemma CellsMapStep(ls: seq<string>, m: CellMap, afterMap: seq<string>)
    requires |ls| >= 1 && Classify(ls[0]) == CellStartL
    requires ParseEntries(ls[1..]) == Some((m, afterMap))
    requires ParseCells(afterMap).Some?
    ensures ParseCells(ls) == Some(([Some(m)] + ParseCells(afterMap).value.0, ParseCells(afterMap).value.1))
  {
  }

  lemma RowsBlankStep(ls: seq<string>)
    requires |ls| >= 1 && Classify(ls[0]) == BlankRowL
    requires ParseRows(ls[1..]).Some?
    ensures ParseRows(ls) == Some([[]] + ParseRows(ls[1..]).value)
  {
  }

  lemma RowsCellsStep(ls: seq<string>, row: Row, afterRow: seq<string>)
    requires |ls| >= 1 && Classify(ls[0]) == RowStartL
    requires ParseCells(ls[1..]) == Some((row, afterRow))
    requires ParseRows(afterRow).Some?
    ensures ParseRows(ls) == Some([row] + ParseRows(afterRow).value)
  {
  }

  lemma EntriesStop(ls: seq<string>)
    requires EndsMap(ls)
    ensures ParseEntries(ls) == Some(([], ls))
  {
  }

  lemma CellsStop(ls: seq<string>)
    requires EndsRow(ls)
    ensures ParseCells(ls) == Some(([], ls))
  {
  }

  lemma {:induction false} EntriesRoundTrip(m: CellMap, rest: seq<string>)
    requires ValidCellMap(m) && EndsMap(rest)
    ensures ParseEntries(FlatMap(EntryLines, m) + rest) == Some((m, rest))
  {
    if m == [] {
      assert FlatMap(EntryLines, m) + rest == rest;
      EntriesStop(rest);
    } else {
      assert ValidCellMap(m[1..]) by {
        forall x | x in m[1..] ensures x in m { }
      }
      EntriesRoundTrip(m[1..], rest);
      assert m[0] in m;
      EntryRoundTrip(m[0], m[1..], rest);
      assert [m[0]] + m[1..] == m;
    }
  }

  /** The step of `EntriesRoundTrip` for the first entry. */
  lemma EntryRoundTrip(e: Entry, m: CellMap, rest: seq<string>)
    requires e.Attr? ==> ValidKey(e.key)
    requires ParseEntries(FlatMap(EntryLines, m) + rest) == Some((m, rest))
    ensures ParseEntries(FlatMap(EntryLines, [e] + m) + rest) == Some(([e] + m, rest))
  {
    FlatMapCons(EntryLines, e, m);
    AppendAssoc(EntryLines(e), FlatMap(EntryLines, m), rest);
    EntryStep(e, FlatMap(EntryLines, m) + rest);
  }

  /** Reading one entry's lines in front of lines that read as a map. */
  lemma EntryStep(e: Entry, tail: seq<string>)
    requires e.Attr? ==> ValidKey(e.key)
    requires ParseEntries(tail).Some?
    ensures ParseEntries(EntryLines(e) + tail) == Some(([e] + ParseEntries(tail).value.0, ParseEntries(tail).value.1))
  {
    if e.Merge? {
      MergeEntryStep(e.fromTo, tail);
    } else {
      AttrEntryStep(e.key, e.val, tail);
    }
  }

  lemma MergeEntryStep(v: Value, tail: seq<string>)
    requires ParseEntries(tail).Some?
    ensures ParseEntries(EntryLines(Merge(v)) + tail) == Some(([Merge(v)] + ParseEntries(tail).value.0, ParseEntries(tail).value.1))
  {
    var ls := EntryLines(Merge(v)) + tail;
    ValueRoundTrip(v);
    ClassifyMerge();
    ClassifyFromTo(FormatValue(v));
    assert ls[0] == MERGE_LINE && ls[1] == FROM_TO_PREFIX + FormatValue(v) && ls[2..] == tail;
    EntriesMergeStep(ls, v);
  }

  lemma AttrEntryStep(k: string, v: Value, tail: seq<string>)
    requires ValidKey(k)
    requires ParseEntries(tail).Some?
    ensures ParseEntries(EntryLines(Attr(k, v)) + tail) == Some(([Attr(k, v)] + ParseEntries(tail).value.0, ParseEntries(tail).value.1))
  {
    var ls := EntryLines(Attr(k, v)) + tail;
    ValueRoundTrip(v);
    ClassifyKeyValue(k, FormatValue(v));
    assert ls[0] == KEY_INDENT + k + ": " + FormatValue(v) && ls[1..] == tail;
    EntriesAttrStep(ls, k, v);
  }

  lemma {:induction false} CellsRoundTrip(cells: Row, rest: seq<string>)
    requires ValidRow(cells) && EndsRow(rest)
    ensures ParseCells(FlatMap(CellLines, cells) + rest) == Some((cells, rest))
  {
    if cells == [] {
      assert FlatMap(CellLines, cells) + rest == rest;
      CellsStop(rest);
    } else {
      assert ValidRow(cells[1..]) by {
        forall x | x in cells[1..] ensures x in cells { }
      }
      CellsRoundTrip(cells[1..], rest);
      assert cells[0] in cells;
      CellRoundTrip(cells[0], cells[1..], rest);
      assert [cells[0]] + cells[1..] == cells;
    }
  }

  /** The step of `CellsRoundTrip` for the first cell. */
  lemma CellRoundTrip(c: Option<CellMap>, cells: Row, rest: seq<string>)
    requires c.Some? ==> ValidCellMap(c.value)
    requires EndsRow(rest)
    requires ParseCells(FlatMap(CellLines, cells) + rest) == Some((cells, rest))
    ensures ParseCells(FlatMap(CellLines, [c] + cells) + rest) == Some(([c] + cells, rest))
  {
    var tail := FlatMap(CellLines, cells) + rest;
    FlatMapCons(CellLines, c, cells);
    AppendAssoc(CellLines(c), FlatMap(CellLines, cells), rest);
    if c.None? {
      NullCellRoundTrip(CellLines(c) + tail, tail);
    } else {
      CellsEndMap(cells, rest);
      MapCellLines(c.value, CellLines(c) + tail, tail);
      MapCellRoundTrip(c.value, CellLines(c) + tail, tail);
    }
  }

  lemma NullCellRoundTrip(ls: seq<string>, tail: seq<string>)
    requires ls == [NULL_CELL_LINE] + tail
    requires ParseCells(tail).Some?
    ensures ParseCells(ls) == Some(([None] + ParseCells(tail).value.0, ParseCells(tail).value.1))
  {
    ClassifyNullCell();
    assert ls[1..] == tail;
    CellsNullStep(ls);
  }

  lemma MapCellLines(m: CellMap, ls: seq<string>, tail: seq<string>)
    requires ls == CellLines(Some(m)) + tail
    ensures |ls| >= 1 && ls[0] == CELL_START_LINE && ls[1..] == FlatMap(EntryLines, m) + tail
  {
    AppendAssoc([CELL_START_LINE], FlatMap(EntryLines, m), tail);
  }

  /** The lines after a cell map end it. */
  lemma CellsEndMap(cells: Row, rest: seq<string>)
    requires EndsRow(rest)
    ensures EndsMap(FlatMap(CellLines, cells) + rest)
  {
    if cells != [] {
      assert (FlatMap(CellLines, cells) + rest)[0] == CellLines(cells[0])[0];
      ClassifyNullCell();
      ClassifyCellStart();
    } else {
      assert FlatMap(CellLines, cells) + rest == rest;
    }
  }

  lemma MapCellRoundTrip(m: CellMap, ls: seq<string>, tail: seq<string>)
    requires ValidCellMap(m) && EndsMap(tail)
    requires |ls| >= 1 && ls[0] == CELL_START_LINE && ls[1..] == FlatMap(EntryLines, m) + tail
    requires ParseCells(tail).Some?
    ensures ParseCells(ls) == Some(([Some(m)] + ParseCells(tail).value.0, ParseCells(tail).value.1))
  {
    EntriesRoundTrip(m, tail);
    ClassifyCellStart();
    CellsMapStep(ls, m, tail);
  }

  lemma {:induction false} RowsRoundTrip(rows: seq<Row>)
    requires forall row :: row in rows ==> ValidRow(row)
    ensures ParseRows(FlatMap(RowLines, rows)) == Some(rows)
  {
    if rows != [] {
      assert forall r :: r in rows[1..] ==> ValidRow(r) by {
        forall r | r in rows[1..] ensures r in rows { }
      }
      RowsRoundTrip(rows[1..]);
      FlatMapCons(RowLines, rows[0], rows[1..]);
      RowsStart(rows[1..]);
      assert rows[0] in rows;
      RowStep(rows[0], FlatMap(RowLines, rows[1..]));
      assert [rows[0]] + rows[1..] == rows;
    }
  }

  /** The lines of a row list end any row before them. */
  lemma RowsStart(rows: seq<Row>)
    ensures EndsRow(FlatMap(RowLines, rows))
  {
    if rows != [] {
      FlatMapCons(RowLines, rows[0], rows[1..]);
      assert [rows[0]] + rows[1..] == rows;
      assert FlatMap(RowLines, rows)[0] == RowLines(rows[0])[0];
      ClassifyBlankRow();
      ClassifyRowStart();
    }
  }

  /** Reading one row's lines in front of lines that read as rows. */
  lemma RowStep(row: Row, tail: seq<string>)
    requires ValidRow(row) && EndsRow(tail) && ParseRows(tail).Some?
    ensures ParseRows(RowLines(row) + tail) == Some([row] + ParseRows(tail).value)
  {
    var ls := RowLines(row) + tail;
    if row == [] {
      ClassifyBlankRow();
      assert ls[0] == BLANK_ROW_LINE && ls[1..] == tail;
      RowsBlankStep(ls);
    } else {
      CellsRowStep(row, tail);
    }
  }

  lemma CellsRowStep(row: Row, tail: seq<string>)
    requires row != [] && ValidRow(row) && EndsRow(tail) && ParseRows(tail).Some?
    ensures ParseRows(RowLines(row) + tail) == Some([row] + ParseRows(tail).value)
  {
    var ls := RowLines(row) + tail;
    NonBlankRowLines(row, tail);
    CellsRoundTrip(row, tail);
    ClassifyRowStart();
    RowsCellsStep(ls, row, tail);
  }

  lemma NonBlankRowLines(row: Row, tail: seq<string>)
    requires row != []
    ensures var ls := RowLines(row) + tail;
      |ls| >= 1 && ls[0] == ROW_START_LINE && ls[1..] == FlatMap(CellLines, row) + tail
  {
    AppendAssoc([ROW_START_LINE], FlatMap(CellLines, row), tail);
  }

  /** Reading back the emitted document gives the row list that was emitted. */
  lemma YamlRoundTrip(rows: seq<Row>)
    requires forall row :: row in rows ==> ValidRow(row)
    ensures ParseYaml(YamlLines(rows)) == Some(rows)
  {
    var lines := YamlLines(rows);
    assert lines[..3] == HEADER;
    assert lines[3..|lines| - 1] == FlatMap(RowLines, rows);
    RowsRoundTrip(rows);
  }

  /** Two row lists are emitted as the same document only when they are equal. */
  lemma YamlInjective(rows1: seq<Row>, rows2: seq<Row>)
    requires forall row :: row in rows1 ==> ValidRow(row)
    requires forall row :: row in rows2 ==> ValidRow(row)
    ensures YamlLines(rows1) == YamlLines(rows2) <==> rows1 == rows2
  {
    YamlRoundTrip(rows1);
    YamlRoundTrip(rows2);
  }
}
