/**
  The converter `json_to_csv`: dispatch, the empty-result short-circuit,
  the output file name and the lines written to the file.
 */
module Converter {
  import opened JsonValue
  import opened PyStr
  import opened Fields
  import opened Dispatch

  const Banner: string := "OVERALL INDIVIDUAL RESULTS:"
  const FilePrefix: string := "TPVirtual-Results-Event"

  /** A line of the output file: raw text written with `f.write`, or a CSV
      row of cells written by the CSV writer. */
  datatype Line = Text(text: string) | CsvRow(cells: seq<Json>)

  /** The output file: its name and its lines. */
  datatype Report = Report(fileName: string, lines: seq<Line>)

  /** The header values a file name can print. */
  predicate PrintableHeader(b: Batch) {
    IsScalar(b.eventKey) && IsScalar(b.pen)
  }

  /** `f"TPVirtual-Results-Event{event_key}-Pen{pen}-{timestamp}.csv"` */
  function FileName(eventKey: Json, pen: Json, timestamp: string): (name: string)
    requires IsScalar(eventKey) && IsScalar(pen)
    ensures |name| == |FilePrefix| + |Display(eventKey)| + 4 + |Display(pen)| + 1 + |timestamp| + 4
    ensures name[..|FilePrefix|] == FilePrefix && name[|name| - 4..] == ".csv"
  {
    FilePrefix + (Display(eventKey) + ("-Pen" + (Display(pen) + ("-" + (timestamp + ".csv")))))
  }

  /** The lines of a report for `results`: the banner, a blank line, the
      header, then one row per record in input order. */
  predicate IsReportBody(lines: seq<Line>, results: seq<Record>, eventKey: Json, pen: Json) {
    && |lines| == 3 + |results|
    && lines[0] == Text(Banner)
    && lines[1] == Text("")
    && lines[2] == CsvRow(HeaderCells())
    && forall i :: 0 <= i < |results| ==> lines[3 + i] == CsvRow(Cells(MapRecord(results[i], eventKey, pen)))
  }

  /** The writing part of the converter: the banner and the blank line go
      out first, then the header, then a row per record. */
  method WriteReport(results: seq<Record>, eventKey: Json, pen: Json) returns (lines: seq<Line>)
    ensures IsReportBody(lines, results, eventKey, pen)
  {
    lines := [Text(Banner), Text("")];
    lines := lines + [CsvRow(HeaderCells())];
    for n := 0 to |results|
      invariant |lines| == 3 + n
      invariant lines[0] == Text(Banner) && lines[1] == Text("") && lines[2] == CsvRow(HeaderCells())
      invariant forall i :: 0 <= i < n ==> lines[3 + i] == CsvRow(Cells(MapRecord(results[i], eventKey, pen)))
    {
      var row := MapRecord(results[n], eventKey, pen);
      lines := lines + [CsvRow(Cells(row))];
    }
  }

  /** `json_to_csv` on an already-parsed document, with the clock reading
      passed in as `timestamp`. `None` is the source's bare `return` when
      there are no results; otherwise the file it writes. */
  method JsonToCsv(doc: Json, timestamp: string) returns (out: Option<Report>)
    requires WellShaped(doc)
    requires Classify(doc).results != [] ==> PrintableHeader(Classify(doc))
    ensures out.None? <==> Classify(doc).results == []
    ensures out.Some? ==> out.value.fileName == FileName(Classify(doc).eventKey, Classify(doc).pen, timestamp)
    ensures out.Some? ==> IsReportBody(out.value.lines, Classify(doc).results, Classify(doc).eventKey, Classify(doc).pen)
  {
    var batch := Classify(doc);
    if |batch.results| == 0 {
      return None;
    }
    var name := FileName(batch.eventKey, batch.pen, timestamp);
    var lines := WriteReport(batch.results, batch.eventKey, batch.pen);
    out := Some(Report(name, lines));
  }

  /** With int headers the file name determines the event key, the pen and
      the timestamp: two conversions write the same file only when all
      three agree. */
  lemma FileNameInjective(a: int, b: int, a': int, b': int, timestamp: string, timestamp': string)
    requires FileName(Int(a), Int(b), timestamp) == FileName(Int(a'), Int(b'), timestamp')
    ensures a == a' && b == b' && timestamp == timestamp'
  {
    var tail := "-" + (timestamp + ".csv");
    var tail' := "-" + (timestamp' + ".csv");
    var pen := "-Pen" + (IntToString(b) + tail);
    var pen' := "-Pen" + (IntToString(b') + tail');
    var name := FileName(Int(a), Int(b), timestamp);
    assert name[|FilePrefix|..] == IntToString(a) + pen;
    assert name[|FilePrefix|..] == IntToString(a') + pen';
    IntTextPrefix(IntToString(a), IntToString(a'), pen, pen');
    assert pen[4..] == IntToString(b) + tail;
    assert pen'[4..] == IntToString(b') + tail';
    IntTextPrefix(IntToString(b), IntToString(b'), tail, tail');
    assert timestamp == tail[1..][..|timestamp|];
    assert timestamp' == tail'[1..][..|timestamp'|];
    IntToStringInjective(a, a');
    IntToStringInjective(b, b');
  }

  /** The timestamp is recoverable from the file name whatever the header
      values are, so conversions whose timestamp strings differ write
      different files, on the bare-list path with its text defaults too. */
  lemma FileNameSeparatesTimestamps(eventKey: Json, pen: Json, timestamp: string, timestamp': string)
    requires IsScalar(eventKey) && IsScalar(pen)
    requires FileName(eventKey, pen, timestamp) == FileName(eventKey, pen, timestamp')
    ensures timestamp == timestamp'
  {
    var name := FileName(eventKey, pen, timestamp);
    var tail := name[|FilePrefix|..][|Display(eventKey)|..][4..][|Display(pen)|..];
    assert tail == "-" + (timestamp + ".csv");
    assert tail == "-" + (timestamp' + ".csv");
    assert timestamp == tail[1..][..|timestamp|];
    assert timestamp' == tail[1..][..|timestamp'|];
  }

  /** The document `{"event_key": 88022, "pen": 3, "results": [{"position":
      1, "name": "A. Runner"}]}`. */
  function ExampleDocument(): Json {
    Object(map["event_key" := Int(88022), "pen" := Int(3), "results" := Array([Object(ExampleRunner())])])
  }

  function ExampleRunner(): Record {
    map["position" := Int(1), "name" := Str("A. Runner")]
  }

  /** The example's header values are the document's own. */
  lemma ExampleHeader()
    ensures var b := Classify(ExampleDocument());
      b.results == [ExampleRunner()] && b.eventKey == Int(88022) && b.pen == Int(3)
  {
    assert ShapeOf(ExampleDocument()) == WithResults;
    assert Records([Object(ExampleRunner())]) == [ExampleRunner()];
  }

  /** The example's file is named after event 88022 and pen 3. */
  lemma ExampleFileName(timestamp: string)
    ensures FileName(Int(88022), Int(3), timestamp) == "TPVirtual-Results-Event88022-Pen3-" + timestamp + ".csv"
  {
    ExampleDigits();
    calc {
      FileName(Int(88022), Int(3), timestamp);
      FilePrefix + ("88022" + ("-Pen" + ("3" + ("-" + (timestamp + ".csv")))));
      "TPVirtual-Results-Event88022-Pen3-" + timestamp + ".csv";
    }
  }

  lemma ExampleDigits()
    ensures Display(Int(88022)) == "88022" && Display(Int(3)) == "3"
  {
    assert NatToString(8) == "8" && NatToString(88) == "88" && NatToString(880) == "880";
    assert NatToString(8802) == "8802" && NatToString(88022) == "88022";
  }

  /** The example's row takes EventKey and Pen from the document, Position
      and Name from the record, and the defaults for Time and Distance. */
  lemma ExampleRow()
    ensures var row := MapRecord(ExampleRunner(), Int(88022), Int(3));
      && Column(row, 0) == Int(88022) && Column(row, 1) == Int(3)
      && Column(row, 2) == Int(1) && Column(row, 3) == Str("A. Runner")
      && Column(row, 6) == Int(0) && Column(row, 8) == Num("32417.966")
      && Column(row, 4) == Str("")
  {
  }

  /** `{"results": []}` produces nothing. */
  lemma ExampleEmptyResults()
    ensures Classify(Object(map["results" := Array([])])).results == []
  {
    assert ShapeOf(Object(map["results" := Array([])])) == WithResults;
  }

  /** `[{"name": "X"}, {"name": "Y"}]` gives two rows, both with the event
      key '88000' and the pen '1'. */
  lemma ExampleBareList()
    ensures var x, y := map["name" := Str("X")], map["name" := Str("Y")];
      var b := Classify(Array([Object(x), Object(y)]));
      && b.results == [x, y]
      && Column(MapRecord(x, b.eventKey, b.pen), 0) == Str("88000")
      && Column(MapRecord(x, b.eventKey, b.pen), 1) == Str("1")
      && Column(MapRecord(y, b.eventKey, b.pen), 0) == Str("88000")
      && Column(MapRecord(y, b.eventKey, b.pen), 1) == Str("1")
      && Column(MapRecord(y, b.eventKey, b.pen), 3) == Str("Y")
  {
    var x, y := map["name" := Str("X")], map["name" := Str("Y")];
    assert ShapeOf(Array([Object(x), Object(y)])) == BareList;
  }

  /** A single object that spells its event key both ways: the file name
      takes `event_key` (document-level precedence) while the row's
      EventKey column takes `EventKey` (record-level precedence). */
  lemma SingleObjectSpellingsDisagree(timestamp: string)
    ensures var d := map["event_key" := Int(1), "EventKey" := Int(2)];
      var b := Classify(Object(d));
      && FileName(b.eventKey, b.pen, timestamp) == "TPVirtual-Results-Event1-Pen1-" + timestamp + ".csv"
      && Column(MapRecord(b.results[0], b.eventKey, b.pen), 0) == Int(2)
  {
    var d := map["event_key" := Int(1), "EventKey" := Int(2)];
    assert ShapeOf(Object(d)) == SingleRecord;
    assert IntToString(1) == "1";
  }
}
