# json_to_csv race-result normaliser, modelled in Dafny

This project models `json_to_csv` in `scripts/json_to_csv.py`. The
converter takes a JSON document of race results and writes a CSV file in
the TrainingPeaks Virtual layout. It works in five steps:

- It finds the result records and the document-level event key and pen.
  The document is one of three shapes: a dict with a `results` key, a bare
  list, or any other dict, which becomes a one-record list.
- It stops without writing anything when there are no records.
- It names the file `TPVirtual-Results-Event{event_key}-Pen{pen}-{timestamp}.csv`.
- It writes a banner line, a blank line and the 21-column header.
- It writes one row per record, in input order. Each column is filled by a
  `dict.get` chain: the PascalCase key, then the snake_case key (for `UID`:
  `UID`, `uid`, `user_id`), then a default.

The model works on an already-parsed JSON value and returns the file name
and the file's lines instead of writing them.

Files, one module each:

- `json.dfy` (`JsonValue`): the `Json` value, `dict.get` (`Get`), and
  ordered lookup with fallback (`FirstPresent`).
- `pystr.dfy` (`PyStr`): what Python's `str` prints for the scalar header
  values. A decimal reader reads an int's text back (a left inverse), and
  the canonical form (no leading zero, no "-0") makes the text unique.
- `fields.dfy` (`Fields`): the header, the source's row dict
  (`MapRecord`), what `csv.DictWriter` takes from it (`Cells`,
  `HeaderCells`), and the alias table as data (`AliasOf`).
- `dispatch.dfy` (`Dispatch`): the three-way shape dispatch (`Classify`).
- `converter.dfy` (`Converter`): the file name, the writing loop
  (`WriteReport`) and the whole converter (`JsonToCsv`), plus worked
  examples.

The row dict is modelled twice, so the two can be checked against each
other. `MapRecord` copies the source's dict literal, nested `get` calls and
all. `AliasOf` states the same mapping as a table: column name, candidate
keys in order, fallback. `RowFollowsAliasTable` proves the two agree on
every column.

## Model

| member | source | states |
|---|---|---|
| JsonValue.FirstPresentWins | scripts/json_to_csv.py:83-103 | In an ordered `get` chain, the first candidate key present wins, even when its value is null or empty. The default is used only when every candidate key is absent. |
| PyStr.IntRoundTrip | scripts/json_to_csv.py:59 | The decimal text `str` prints for an int parses back to that int, negative ints included. |
| PyStr.IntToString | scripts/json_to_csv.py:59 | `str(int)` is canonical decimal text: an optional '-', then digits, with no leading zero and never "-0". |
| PyStr.IntTextUnique | scripts/json_to_csv.py:59 | Canonical int text is unique: any canonical text that reads back as `i` is exactly `str(i)`. Together with `IntRoundTrip`, this fixes the text printed for an int. |
| PyStr.Display | scripts/json_to_csv.py:59 | f-string text of a scalar header value. A string or a float is its own text, and None/True/False are printed by name. An int is printed as canonical decimal text that reads back to the int. |
| Fields.MapRecord | scripts/json_to_csv.py:82-104 | The row dict literal, with its nested `get` chains. Its contract is stated by `RowFollowsAliasTable`, `ColumnLookup` and `DataCellUnderHeader`. |
| Fields.DataCellUnderHeader | scripts/json_to_csv.py:69-106 | Header and data rows both have 21 cells. Header cell i names the column's first candidate key. Data cell i, written by `writerow` under it, holds that column's alias-table lookup for the record. |
| Fields.AliasColumnsAreHeader | scripts/json_to_csv.py:69-104 | The alias table lists the columns in header order. Each column tries its own PascalCase name first, then at least one more key. |
| Fields.RowFollowsAliasTable | scripts/json_to_csv.py:82-104 | Every column of the source's row dict equals the alias-table lookup for that column: the first present candidate key, else the column's fallback. The fallback is the document-level value for EventKey and Pen, 0 for Time, DeltaTime, DeltaDistance and Points, 32417.966 for Distance, and '' otherwise. |
| Fields.ColumnLookup | scripts/json_to_csv.py:82-104 | For every column, a present earlier key beats every later key and the fallback, even when its value is null. The fallback (for EventKey and Pen, the document-level value) is used only when no candidate key is present. |
| Dispatch.HeaderEventKey | scripts/json_to_csv.py:37 | The document-level event key is the ordered lookup of `event_key`, then `EventKey`, then '88000'. The same expression is repeated at line 46 for a single dict. |
| Dispatch.HeaderPen | scripts/json_to_csv.py:38 | The document-level pen is the ordered lookup of `pen`, then `Pen`, then '1'. The same expression is repeated at line 47 for a single dict. |
| Dispatch.Classify | scripts/json_to_csv.py:35-48 | Dict with `results`: the records are that list. Bare list: the records are the list, and the event key and pen are '88000' and '1' whatever the records hold. Any other dict: the records are exactly `[doc]`. For both dict shapes, event key and pen are the first present of `event_key`/`EventKey` and `pen`/`Pen`, else the defaults. |
| Dispatch.HeaderPrecedence | scripts/json_to_csv.py:37-38 | At document level, `event_key` beats `EventKey` and `pen` beats `Pen`. A present key wins whatever its value. '88000' and '1' are used only when neither spelling is present. |
| Dispatch.EmptyOnlyForEmptyList | scripts/json_to_csv.py:44-52 | The records are empty exactly when the document's record list is empty. A single dict always gives exactly one record, so it never takes the empty short-circuit. |
| Converter.FileName | scripts/json_to_csv.py:59 | The file name starts with `TPVirtual-Results-Event`, ends with `.csv`, and its length is the sum of its parts. |
| Converter.FileNameInjective | scripts/json_to_csv.py:58-59 | For int headers, the file name determines the event key, the pen and the timestamp. Two runs write the same file only when all three are equal. |
| Converter.FileNameSeparatesTimestamps | scripts/json_to_csv.py:58-59 | For any scalar event key and pen, the string defaults of a bare list included, the file name determines the timestamp. Runs whose timestamp strings differ write different files. |
| Converter.WriteReport | scripts/json_to_csv.py:62-106 | Output lines in order: the banner `OVERALL INDIVIDUAL RESULTS:`, a blank line, the header row, then exactly one row per record. Row i is the mapped record i, with nothing reordered or dropped. |
| Converter.JsonToCsv | scripts/json_to_csv.py:14-110 | Returns None exactly when the record list is empty. Otherwise it returns one file. The file is named from the document-level event key and pen and the given timestamp, never from a per-record override, and holds the WriteReport layout. |
| Converter.ExampleHeader | scripts/json_to_csv.py:35-38 | `{"event_key": 88022, "pen": 3, "results": [...]}` yields the one record, event key 88022 and pen 3. |
| Converter.ExampleFileName | scripts/json_to_csv.py:59 | Event key 88022 and pen 3 give the name `TPVirtual-Results-Event88022-Pen3-<timestamp>.csv`. |
| Converter.ExampleRow | scripts/json_to_csv.py:83-91 | Take the record `{"position": 1, "name": "A. Runner"}` with event key 88022 and pen 3. Its row has EventKey 88022, Pen 3, Position 1 and Name "A. Runner", with the defaults Team '', Time 0 and Distance 32417.966. |
| Converter.ExampleEmptyResults | scripts/json_to_csv.py:35-52 | `{"results": []}` yields no records, so nothing is written. |
| Converter.ExampleBareList | scripts/json_to_csv.py:39-43 | `[{"name": "X"}, {"name": "Y"}]` yields two records in order, and each row gets EventKey '88000' and Pen '1'. |
| Converter.SingleObjectSpellingsDisagree | scripts/json_to_csv.py:46-48 | Take a single dict holding both `event_key` 1 and `EventKey` 2. The file name uses 1, because snake_case wins at document level. The row's EventKey column is 2, because PascalCase wins at record level. |

## Left out

- File I/O is not modelled: opening and `json.load` of the input, `Path.mkdir`, the UTF-8-with-BOM encoding and `newline=''`. The input is an already-parsed `Json` value, and the output is the returned `Report` (file name and lines).
- JSON parsing is not modelled, including the handling of duplicate keys. A JSON object is a `map`, because the converter never looks at dict key order.
- `datetime.now().strftime('%Y%m%d_%H%M%S')` reads the clock. The timestamp is a string parameter, and its format is not modelled. The stamp is naive local time with one-second resolution. It can repeat: two runs in the same second, the repeated hour at a daylight-saving fall-back, or a clock set back. Two distinct runs can then get the same name, and the second overwrites the first.
- The output path `Path(output_folder) / name` is not modelled. `Report` carries the file name only. Opening the output file can also fail, because the name can hold text from a string header. A '/' points into a subfolder that does not exist, and a NUL or an over-long name is rejected. In those cases `open` (scripts/json_to_csv.py:62) raises after `mkdir`, while `JsonToCsv` returns `Some(Report)`.
- CSV serialisation inside `csv.DictWriter` is not modelled: `QUOTE_NONNUMERIC` quoting, escaping and the CRLF row terminator. A written row is its sequence of cell values. The banner and blank line are `Text` lines.
- The row dict is a datatype with one field per column. `DictWriter` reads it in header order (`Column`, `Cells`), so the dict's own key order is not represented.
- Floats are not modelled. A JSON number with a fraction or exponent is `Num(text)`, holding the text Python's `str` prints for it. The Distance default 32417.966 is the constant `Num("32417.966")` and is never computed on.
- Documents the converter does not handle cleanly are excluded by the precondition `WellShaped`. These are: a top-level string, number, boolean or null; a `results` value that is not a list; and records that are not dicts. In Python these raise `TypeError` or `AttributeError`, or they return early because the value is falsy: `{"results": null}` returns None. A non-dict record further down the list fails only after the earlier rows are written. A list containing the string "results" takes the `'results' in data` branch and then fails. It is excluded too, because such a list holds a non-dict item.
- JsonToCsv: requires `PrintableHeader` (a scalar event key and pen) whenever a file is named. Python's `str` of a list or dict used as a header value (its `repr`) is not modelled.
- The `print` messages (no results, success and record count) and the CLI `main` (argument checks, the file-existence check, `sys.exit`) are not modelled.
