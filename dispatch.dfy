/**
  Shape dispatch: where the converter finds the result records and the
  document-level event key and pen.
 */
module Dispatch {
  import opened JsonValue

  /** The three document shapes the converter tells apart, in the order it
      tests them. */
  datatype Shape = WithResults | BareList | SingleRecord

  const DefaultEventKey: Json := Str("88000")
  const DefaultPen: Json := Str("1")

  /** Python's `'results' in data`: a key test on a dict, a membership test
      on a list. */
  predicate HasResults(doc: Json)
    requires doc.Object? || doc.Array?
  {
    if doc.Object? then "results" in doc.fields else Str("results") in doc.items
  }

  function ShapeOf(doc: Json): Shape
    requires doc.Object? || doc.Array?
  {
    if HasResults(doc) then WithResults
    else if doc.Array? then BareList
    else SingleRecord
  }

  predicate AllObjects(items: seq<Json>) {
    forall i :: 0 <= i < |items| ==> items[i].Object?
  }

  /** A subset of the documents the converter handles without a Python
      exception: a dict whose `results`, when present, is a list of dicts,
      or a list of dicts (which therefore never contains the string
      "results"). */
  predicate WellShaped(doc: Json) {
    match doc
    case Object(fields) =>
      "results" in fields ==> fields["results"].Array? && AllObjects(fields["results"].items)
    case Array(items) => AllObjects(items)
    case _ => false
  }

  function Records(items: seq<Json>): (rs: seq<Record>)
    requires AllObjects(items)
    ensures |rs| == |items|
    ensures forall i :: 0 <= i < |items| ==> items[i] == Object(rs[i])
  {
    seq(|items|, i requires 0 <= i < |items| => items[i].fields)
  }

  /** `data.get('event_key', data.get('EventKey', '88000'))`: the ordered
      lookup of `event_key`, then `EventKey`, then the default. */
  function HeaderEventKey(doc: Record): (v: Json)
    ensures v == FirstPresent(doc, ["event_key", "EventKey"], DefaultEventKey)
  {
    FirstPresentTwo(doc, "event_key", "EventKey", DefaultEventKey);
    Get(doc, "event_key", Get(doc, "EventKey", DefaultEventKey))
  }

  /** `data.get('pen', data.get('Pen', '1'))`: the ordered lookup of `pen`,
      then `Pen`, then the default. */
  function HeaderPen(doc: Record): (v: Json)
    ensures v == FirstPresent(doc, ["pen", "Pen"], DefaultPen)
  {
    FirstPresentTwo(doc, "pen", "Pen", DefaultPen);
    Get(doc, "pen", Get(doc, "Pen", DefaultPen))
  }

  /** What the dispatch yields: the records and the two header values. */
  datatype Batch = Batch(results: seq<Record>, eventKey: Json, pen: Json)

  function Classify(doc: Json): (b: Batch)
    requires WellShaped(doc)
    ensures ShapeOf(doc) == BareList ==>
      b.results == Records(doc.items) && b.eventKey == DefaultEventKey && b.pen == DefaultPen
    ensures ShapeOf(doc) == WithResults ==> b.results == Records(doc.fields["results"].items)
    ensures ShapeOf(doc) == SingleRecord ==> b.results == [doc.fields]
    ensures ShapeOf(doc) != BareList ==>
      && b.eventKey == FirstPresent(doc.fields, ["event_key", "EventKey"], DefaultEventKey)
      && b.pen == FirstPresent(doc.fields, ["pen", "Pen"], DefaultPen)
  {
    match ShapeOf(doc)
    case WithResults =>
      Batch(Records(doc.fields["results"].items), HeaderEventKey(doc.fields), HeaderPen(doc.fields))
    case BareList =>
      Batch(Records(doc.items), DefaultEventKey, DefaultPen)
    case SingleRecord =>
      Batch([doc.fields], HeaderEventKey(doc.fields), HeaderPen(doc.fields))
  }

  /** At document level the snake_case spelling wins over PascalCase, a
      present key wins whatever its value, and the defaults '88000' and '1'
      apply only when neither spelling is present. */
  lemma HeaderPrecedence(doc: Json)
    requires WellShaped(doc) && ShapeOf(doc) != BareList
    ensures var b := Classify(doc); var d := doc.fields;
      && ("event_key" in d ==> b.eventKey == d["event_key"])
      && ("event_key" !in d && "EventKey" in d ==> b.eventKey == d["EventKey"])
      && ("event_key" !in d && "EventKey" !in d ==> b.eventKey == DefaultEventKey)
      && ("pen" in d ==> b.pen == d["pen"])
      && ("pen" !in d && "Pen" in d ==> b.pen == d["Pen"])
      && ("pen" !in d && "Pen" !in d ==> b.pen == DefaultPen)
  {
    FirstPresentWins(doc.fields, ["event_key", "EventKey"], DefaultEventKey);
    FirstPresentWins(doc.fields, ["pen", "Pen"], DefaultPen);
    assert FirstPresentAt(doc.fields, ["event_key", "EventKey"], 0) <==> "event_key" in doc.fields;
    assert FirstPresentAt(doc.fields, ["pen", "Pen"], 0) <==> "pen" in doc.fields;
  }

  /** The result list is empty exactly when the document's list of records
      is: a single object is always one record. */
  lemma EmptyOnlyForEmptyList(doc: Json)
    requires WellShaped(doc)
    ensures Classify(doc).results == [] <==>
      || (ShapeOf(doc) == WithResults && doc.fields["results"].items == [])
      || (ShapeOf(doc) == BareList && doc.items == [])
    ensures ShapeOf(doc) == SingleRecord ==> |Classify(doc).results| == 1
  {
  }
}
