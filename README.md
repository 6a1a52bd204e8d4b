# Optiwiz header maker — verified model of the translator

The header maker reads the active sheet of an Excel workbook and writes a
`template.format.page_header` YAML document. The document has one entry per
row, followed by a final empty row `- []`. A blank row is `[]`; any other row
holds one descriptor per cell. Alongside it the translator
returns advisory "Logo warnings". This project models the translation core of
`app.py` in Dafny:

- the merged-range lookup;
- ARGB colour normalisation;
- the per-cell descriptor rules: merges, the `<Logo>` and `<placeholder>` sentinels, and the style rules with their defaults;
- the Logo warning;
- the hand-written YAML emitter.

It then proves what these promise.

Layout, by module:

- `Text`: Python's `strip`, `lower`/`upper` and decimal rendering.
- `Values`: cell values with their truthiness and `str()`.
- `Coords`: A1-style coordinates, range coordinates and `split(':')[0]`.
- `Sheets`: the decoded grid, its style snapshot, and `get_merged_range_obj`.
- `Colors`: `format_color_hex` and the default-colour tests.
- `Yaml`: `format_yaml_value` and `build_yaml_string`.
- `YamlParse`: a reader for the emitted lines. It is the emitter's inverse and is used only in proofs.
- `Descriptors`: the specification functions for each cell, row and warning.
- `DescriptorFacts`: facts about the attribute lists.
- `Translate`: `generate_yaml_from_file` as methods with loops, proved equal to the specification functions.
- `CellRules`: the translator's rules, stated key by key.
- `Scenarios`: worked examples.

The workbook is modelled after decoding, as a `Sheet`:

- Each row is a sequence of `Cell` records.
- A cell holds an optional value (bool, int or text), a `hasStyle` flag and a style snapshot.
- A colour is either `Rgb(argb)` or not RGB.
- Each merged range is an integer rectangle.
- The document is modelled as its sequence of lines. Joining them with `"\n"` is left out.

Behaviour of the code that is easy to miss:

- A non-blank row yields one entry per cell of the row (app.py:104-161).
- `border_color` is read from the left border side only (app.py:153-156). No other side is scanned.
- Merge followers are always `null` (app.py:107-109).
- The Logo warning fires when the value below is *truthy* (app.py:122). A value of `0`, `False` or `''` does not raise it, although it is not absent.
- The sentinels are recognised after `strip()` (app.py:118, app.py:125), not only as exact texts.
- `font_size` is dropped when it is `0` as well as when it is `11`, because the code tests the size's truthiness first (app.py:134).

## Model

| member | source | states |
|---|---|---|
| Sheets.GetMergedRange | app.py:24-32 | The loop returns exactly `FirstRange(sheet.merged, row, col)`: the first range in list order that contains the cell, or `None`. |
| Sheets.FirstRangeSpec | app.py:29-32 | `None` iff no range of the list contains the cell. Otherwise the result is a containing range of the list, and no earlier range contains the cell. |
| Sheets.FirstRangeIn | app.py:29-31 | A range found is one of the sheet's ranges. |
| Sheets.DisjointRangesFound | app.py:29-31 | When no two ranges overlap, the lookup returns the one range that contains the cell, whatever the list order. Keeping the ranges as a list instead of a set is therefore harmless. |
| Colors.FormatColorHex | app.py:34-38 | Returns `Some` iff the text has 8 characters. The result then has 7 characters and starts with `#`. |
| Colors.AlphaDropped | app.py:36-37 | Any alpha pair followed by six RGB digits gives `"#" + rgb`. |
| Colors.AlphaDroppedExample | app.py:34-38 | `FFAABBCC` gives `#AABBCC`; a 6-character text gives `None`. |
| Colors.BlackKept | app.py:136-139 | A font or border colour is kept iff it is 8 characters long and its RGB digits are not `000000`. A kept colour is `"#" + argb[2..]`. |
| Colors.WhiteKept | app.py:141-144 | A fill colour is kept iff it is 8 characters long and its RGB digits are not `ffffff` in any case. A kept colour is `"#" + argb[2..]`. |
| Colors.DefaultBlackDropped | app.py:138 | `FF000000` is dropped as the default font colour. |
| Colors.DefaultWhiteDropped | app.py:143 | `FFFFFFFF` and `00ffffff` are dropped as the default fill. |
| Colors.RedKept | app.py:137-139 | `FFFF0000` is kept as `#FF0000`. |
| Text.StripRemovesSpace | app.py:118 | `strip()` removes only whitespace, and only from the two ends. |
| Text.StripTrimmed | app.py:118 | A stripped text neither starts nor ends with whitespace. |
| Text.StripPadded | app.py:118 | A text padded with whitespace strips back to itself, so `"  <Logo> "` is recognised. |
| Text.LeadingSpace | app.py:118 | What `lstrip` removes is a whitespace prefix. |
| Text.TrailingSpace | app.py:118 | What `rstrip` removes is a whitespace suffix. |
| Text.UpperAgainstUpper | app.py:143 | Comparing `upper()` with an upper-case constant is comparing the texts case-insensitively. |
| Text.UpperAgainstCaseless | app.py:138 | Comparing `upper()` with a text without letters is plain equality. |
| Text.IntRoundTrip | app.py:46-47 | `str()` of an integer parses back to that integer. |
| Text.DecimalRoundTrip | app.py:46-47 | The decimal digits of a natural number read back as that number. |
| Coords.CoordinateRoundTrip | app.py:107 | A cell coordinate such as `B12` parses back to its row and column. |
| Coords.CoordinateInjective | app.py:107 | Two coordinates are equal iff they name the same cell. |
| Coords.ColumnRoundTrip | app.py:107 | Column letters are upper case and read back as the column number. |
| Coords.RangeFirstField | app.py:107 | `coord.split(':')[0]` of a range coordinate is the coordinate of its top-left cell. |
| Coords.FirstFieldOf | app.py:107 | The first `:`-field of `a + ":" + b` is `a` when `a` has no colon. |
| Yaml.FormatValue | app.py:42-52 | The rendering is non-empty. It starts with a quote iff the value is a text other than the placeholder code, and such a text is rendered `"'" + s + "'"`. |
| YamlParse.ValueRoundTrip | app.py:42-52 | Every rendered value parses back to the value, so booleans, integers, the bare placeholder and quoted texts never collide. |
| Yaml.BuildYamlString | app.py:54-80 | The nested loops produce exactly `YamlLines(rows)`: the header, each row's lines, and the final `- []`. |
| Yaml.AppendRow | app.py:60-77 | Appends exactly one `- []` line for an empty row, or the row line followed by each cell's lines in order. |
| Yaml.AppendCell | app.py:66-77 | Appends one `- null` line for `None`, or the cell line followed by the entry lines. |
| Yaml.AppendEntries | app.py:72-77 | Appends each entry's lines in insertion order. |
| Yaml.DocumentFrame | app.py:59-79 | The document has at least 4 lines. It starts with `template:`, `    format:`, `        page_header:` and ends with `            - []`, for any row list, the empty one included. |
| Yaml.EntriesLineCount | app.py:72-77 | A map takes one line per key, plus one more per `merge` key. |
| Yaml.CellsLineCount | app.py:66-77 | A list of cells takes one line per cell plus its key lines. |
| Yaml.RowLineCountIsExact | app.py:60-77 | A row takes exactly `RowLineCount(row)` lines: 1 for an empty row; otherwise 1 + cells + keys + `merge` keys. |
| YamlParse.EntriesRoundTrip | app.py:72-77 | The entry lines of a map read back as that map, keys in order. |
| YamlParse.CellsRoundTrip | app.py:66-77 | The lines of a list of cells read back as those cells, `null` included. |
| YamlParse.RowsRoundTrip | app.py:60-77 | The lines of the rows read back as the rows, empty rows included. |
| YamlParse.YamlRoundTrip | app.py:54-80 | The document's list of lines reads back as the row data it was built from. |
| YamlParse.YamlInjective | app.py:54-80 | Two row lists give the same list of lines iff they are equal. |
| Descriptors.CellsUpToAt | app.py:104-161 | Entry `j` of a row's data is the descriptor of cell `j`. |
| Descriptors.RowsUpToAt | app.py:96-163 | Entry `i` of the row data is the data of row `i`. |
| DescriptorFacts.CollectAttrs | app.py:116-156 | The keys of a cell are its value keys followed, when it has a style, by its style keys. |
| DescriptorFacts.AllRowsWellFormed | app.py:111-166 | Every row handed to the emitter has only valid plain keys besides `merge`, so the emitter's and the reader's demands hold. |
| Translate.GenerateYaml | app.py:90-168 | Returns exactly the document of `AllRows(sheet)` and exactly `SheetWarnings(sheet)`. |
| Translate.TranslateSheetRow | app.py:97-163 | One pass of the row loop yields `RowData` (`[]` for a blank row) and appends `RowWarnings`. |
| Translate.TranslateRow | app.py:104-161 | The cell loop yields one descriptor per cell and appends the row's warnings in column order. |
| Translate.TranslateCell | app.py:104-161 | Returns the cell's descriptor (`None` for a follower or an empty map) and appends its warnings. |
| Translate.BuildCellMap | app.py:111-156 | For a non-follower, the map is the merge entry, then the value keys, then the style keys. |
| Translate.AppendValue | app.py:116-129 | Appends the value rules' keys and the cell's Logo warning, if any. |
| Translate.AppendStyle | app.py:131-156 | Appends the font, fill, alignment and border keys in that order. |
| Translate.AppendFont | app.py:132-139 | Appends `bold`, `font_name`, `font_size` and `font_color`, each only when its rule applies. |
| Translate.AppendFill | app.py:141-144 | Appends `bg_color` only for a solid RGB fill that is not white. |
| Translate.AppendAlignment | app.py:146-149 | Appends `align` and `valign` when their rules apply. |
| Translate.AppendBorder | app.py:151-156 | Appends `border: 1`, and then possibly `border_color` taken from the left side. |
| CellRules.CellLookup | app.py:111-156 | Looking up a canonical key in a non-follower gives that key's rule value, or `None`. |
| CellRules.LogoRule | app.py:118-120 | A `<Logo>` cell, whitespace allowed, has `type: 'logo'` and `value: true`. |
| CellRules.PlaceholderRule | app.py:125-127 | A `<placeholder>` cell has `type: 'expert'` and `value` set to the placeholder code. That value is written unquoted. |
| CellRules.CopyRule | app.py:128-129 | Any other value is copied unchanged and the cell gets no `type`. |
| CellRules.NoValueRule | app.py:116-117 | A cell without a value gets neither `type` nor `value`. |
| CellRules.UnstyledRule | app.py:131 | A cell without a style gets no style key. |
| CellRules.FontRules | app.py:132-139 | Each font key, as an iff with its value: `bold` only when true; the name lower-cased unless it is Calibri; the size unless it is 0 or 11; an RGB colour unless it is black. |
| CellRules.FillRule | app.py:141-144 | `bg_color` is present iff the fill is solid and RGB and its digits are not `ffffff` in any case. Its value is `"#" + rgb`. |
| CellRules.AlignmentRules | app.py:146-149 | `align` is present iff set and not `left`. `valign` is present iff set and not `bottom`, and `center` is written `vcenter`. |
| CellRules.BorderRules | app.py:151-156 | `border: 1` iff some side has a style. `border_color` is present iff there is a border and the left side has a non-black RGB colour. |
| CellRules.CellEntriesOrdered | app.py:111-156 | Keys appear in the canonical order (merge, type, value, bold, font_name, font_size, font_color, bg_color, align, valign, border, border_color), and none appears twice. |
| CellRules.FollowerIff | app.py:105-109 | The code's string test equals the position test: a cell is a follower iff a range contains it and it is not the range's top-left cell. |
| CellRules.MergedCell | app.py:105-114 | With disjoint ranges, every cell of a range except the top-left one is `null`. The top-left cell's map starts with `merge` holding the range coordinate. |
| CellRules.MergeKeyIff | app.py:113-114 | A map starts with `merge` iff some range contains the cell, and `merge` appears nowhere else. |
| CellRules.DescriptorNullIff | app.py:158-161 | A cell is `null` iff it is a follower, or it is in no range, has no value, and has no style key that applies. |
| CellRules.RowShape | app.py:96-104 | A row is `[]`, written as one `- []` line, iff all its cells lack both a value and a style. Any other row has one descriptor per cell. |
| CellRules.RowWarningsMember | app.py:98-124 | A warning belongs to a row iff it belongs to one of the row's cells. |
| CellRules.SheetWarningsIff | app.py:118-124 | `w` is returned iff some cell raises it. |
| CellRules.HeaderRoundTrip | app.py:90-168 | The list of lines generated from any sheet reads back as exactly its row data. |
| Scenarios.StyledTotal | app.py:111-139 | A bold size-14 cell holding `Total` becomes `value`, `bold`, `font_size`, in that order. |
| Scenarios.LogoWarningText | app.py:123-124 | The warning names the text below, `A2`, and `A1`. |
| Scenarios.LogoOverText | app.py:118-124 | `<Logo>` in A1 over text in A2 yields exactly one warning. |
| Scenarios.HorizontalMerge | app.py:105-114 | `Header` merged over A1:C1 becomes `merge: {from_to: 'A1:C1'}` and `value`, followed by two `null`s. |
| Scenarios.PlaceholderCell | app.py:125-127 | A `<placeholder>` cell becomes an expert cell. Its exact lines end with `value: return "<placeholder>"`, unquoted. |

## Left out

- The Streamlit interface (app.py:172-210): upload, download, the output file name, and the display of warnings. It is presentation and I/O.
- `load_workbook` and `workbook.active` (app.py:93-94). The model starts from the decoded grid, the `Sheet`.
- openpyxl internals are replaced by explicit definitions:
  - cell coordinates (rendered in A1 form);
  - range containment (an integer rectangle test);
  - `.coord`;
  - `sheet.cell` for the cell below, which gives "no value" outside the grid. Its creation of an empty cell is a side effect invisible to the output.
- The sheet's merged ranges are a list here, while openpyxl keeps a set. `Sheets.DisjointRangesFound` shows that the order does not matter when ranges do not overlap, as in workbooks written by Excel. Nothing in app.py checks this: overlapping ranges are resolved by list order in the model, but by the set's unspecified iteration order in the program (app.py:29-31).
- Float values and float font sizes (`str()` of a float at app.py:47, `int(cell.font.size)` at app.py:134). Values are booleans, integers or texts, and sizes are integers.
- The `isinstance(argb_hex, str)` test at app.py:36. Colours are always texts in the model, so the test always passes.
- Joining the lines with `"\n"` (app.py:80). The document is its list of lines.
- YamlParse.YamlRoundTrip, YamlParse.YamlInjective and CellRules.HeaderRoundTrip hold for the list of lines, not for the joined text. A cell text containing a line break (Alt+Enter) makes the joined document ambiguous: a text `x'` + line break + an indented `font_name: 'y` joins to the same text as a cell `x` with font name `y`.
- Yaml.EntriesLineCount, Yaml.CellsLineCount and Yaml.RowLineCountIsExact count elements of the line list. A text with a line break spans more than one line of the joined document.
- Escaping in YAML. The source does none: a text containing a quote produces a document a YAML reader would misread. The model's reader reads back lines exactly as emitted and is not a YAML parser.
- `lower()` and `upper()` map ASCII letters only. Non-ASCII case mapping is not part of this model.
- Cell values and styles are a snapshot: no aliasing between cells and nothing shared by reference. The emitter and the translator build new lists instead of appending in place.
- `Translate.TranslateSheetRow`, `Yaml.AppendRow`, `Yaml.AppendCell` and `Yaml.AppendEntries` are one loop's body split into a method of its own. The source has them inline. The lemmas `Translate.RowStep` and `Translate.CellStep` carry the row loop's and the cell loop's invariants forward by one step; they have no counterpart in the source.
- Yaml.BuildYamlString requires that a `merge` key holds a range coordinate, never a plain value. On such a map app.py:75 would raise a `TypeError` at `value['from_to']`; the model does not represent that error. The translator never builds such a map: `DescriptorFacts.AllRowsWellFormed` proves the requirement at the only call site.
