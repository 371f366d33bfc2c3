/**
  The per-record field mapping: the 21 output columns of the TrainingPeaks
  Virtual layout, each filled by a `dict.get` chain with a default.
 */
module Fields {
  import opened JsonValue

  /** The header of the output, in column order. */
  const FieldNames: seq<string> := [
    "EventKey", "Pen", "Position", "Name", "Team", "Country", "Time",
    "DeltaTime", "Distance", "DeltaDistance", "Points", "Gender", "UID",
    "ARR", "ARRBand", "EventRating", "EventRatingBand", "AgeBand",
    "NGB", "NGB ID", "UCI ID"
  ]

  /** The float literal 32417.966 the source gives a missing distance. */
  const DefaultDistance: Json := Num("32417.966")

  /** The row dict built for one record: one entry per output column. */
  datatype Row = Row(
    eventKey: Json,
    pen: Json,
    position: Json,
    name: Json,
    team: Json,
    country: Json,
    time: Json,
    deltaTime: Json,
    distance: Json,
    deltaDistance: Json,
    points: Json,
    gender: Json,
    uid: Json,
    arr: Json,
    arrBand: Json,
    eventRating: Json,
    eventRatingBand: Json,
    ageBand: Json,
    ngb: Json,
    ngbId: Json,
    uciId: Json
  )

  /** The row dict built for one result record. `eventKey` and `pen` are
      the document-level values; a record's own keys override them. */
  function MapRecord(result: Record, eventKey: Json, pen: Json): Row {
    Row(
      eventKey := Get(result, "EventKey", Get(result, "event_key", eventKey)),
      pen := Get(result, "Pen", Get(result, "pen", pen)),
      position := Get(result, "Position", Get(result, "position", Str(""))),
      name := Get(result, "Name", Get(result, "name", Str(""))),
      team := Get(result, "Team", Get(result, "team", Str(""))),
      country := Get(result, "Country", Get(result, "country", Str(""))),
      time := Get(result, "Time", Get(result, "time", Int(0))),
      deltaTime := Get(result, "DeltaTime", Get(result, "delta_time", Int(0))),
      distance := Get(result, "Distance", Get(result, "distance", DefaultDistance)),
      deltaDistance := Get(result, "DeltaDistance", Get(result, "delta_distance", Int(0))),
      points := Get(result, "Points", Get(result, "points", Int(0))),
      gender := Get(result, "Gender", Get(result, "gender", Str(""))),
      uid := Get(result, "UID", Get(result, "uid", Get(result, "user_id", Str("")))),
      arr := Get(result, "ARR", Get(result, "arr", Str(""))),
      arrBand := Get(result, "ARRBand", Get(result, "arr_band", Str(""))),
      eventRating := Get(result, "EventRating", Get(result, "event_rating", Str(""))),
      eventRatingBand := Get(result, "EventRatingBand", Get(result, "event_rating_band", Str(""))),
      ageBand := Get(result, "AgeBand", Get(result, "age_band", Str(""))),
      ngb := Get(result, "NGB", Get(result, "ngb", Str(""))),
      ngbId := Get(result, "NGB ID", Get(result, "ngb_id", Str(""))),
      uciId := Get(result, "UCI ID", Get(result, "uci_id", Str("")))
    )
  }

  /** The value a row holds for column `i` of the header. */
  function Column(row: Row, i: nat): Json
    requires i < |FieldNames|
  {
    match i
    case 0 => row.eventKey
    case 1 => row.pen
    case 2 => row.position
    case 3 => row.name
    case 4 => row.team
    case 5 => row.country
    case 6 => row.time
    case 7 => row.deltaTime
    case 8 => row.distance
    case 9 => row.deltaDistance
    case 10 => row.points
    case 11 => row.gender
    case 12 => row.uid
    case 13 => row.arr
    case 14 => row.arrBand
    case 15 => row.eventRating
    case 16 => row.eventRatingBand
    case 17 => row.ageBand
    case 18 => row.ngb
    case 19 => row.ngbId
    case _ => row.uciId
  }

  /** What `csv.DictWriter.writerow` writes for a row: its values in header
      order. */
  function Cells(row: Row): seq<Json> {
    seq(|FieldNames|, i requires 0 <= i < |FieldNames| => Column(row, i))
  }

  /** What `writeheader` writes: each field name as a text cell. */
  function HeaderCells(): seq<Json> {
    seq(|FieldNames|, i requires 0 <= i < |FieldNames| => Str(FieldNames[i]))
  }

  // ---------------------------------------------------------------------
  // The alias table: the same mapping stated as data, one rule per column.

  /** Where a column's value comes from when no candidate key is present. */
  datatype Fallback = Fixed(value: Json) | DocumentEventKey | DocumentPen

  /** A column, its candidate keys in lookup order, and its fallback. */
  datatype Alias = Alias(column: string, keys: seq<string>, fallback: Fallback)

  /** The rule for column `i`. */
  function AliasOf(i: nat): Alias
    requires i < |FieldNames|
  {
    match i
    case 0 => Alias("EventKey", ["EventKey", "event_key"], DocumentEventKey)
    case 1 => Alias("Pen", ["Pen", "pen"], DocumentPen)
    case 2 => Alias("Position", ["Position", "position"], Fixed(Str("")))
    case 3 => Alias("Name", ["Name", "name"], Fixed(Str("")))
    case 4 => Alias("Team", ["Team", "team"], Fixed(Str("")))
    case 5 => Alias("Country", ["Country", "country"], Fixed(Str("")))
    case 6 => Alias("Time", ["Time", "time"], Fixed(Int(0)))
    case 7 => Alias("DeltaTime", ["DeltaTime", "delta_time"], Fixed(Int(0)))
    case 8 => Alias("Distance", ["Distance", "distance"], Fixed(DefaultDistance))
    case 9 => Alias("DeltaDistance", ["DeltaDistance", "delta_distance"], Fixed(Int(0)))
    case 10 => Alias("Points", ["Points", "points"], Fixed(Int(0)))
    case 11 => Alias("Gender", ["Gender", "gender"], Fixed(Str("")))
    case 12 => Alias("UID", ["UID", "uid", "user_id"], Fixed(Str("")))
    case 13 => Alias("ARR", ["ARR", "arr"], Fixed(Str("")))
    case 14 => Alias("ARRBand", ["ARRBand", "arr_band"], Fixed(Str("")))
    case 15 => Alias("EventRating", ["EventRating", "event_rating"], Fixed(Str("")))
    case 16 => Alias("EventRatingBand", ["EventRatingBand", "event_rating_band"], Fixed(Str("")))
    case 17 => Alias("AgeBand", ["AgeBand", "age_band"], Fixed(Str("")))
    case 18 => Alias("NGB", ["NGB", "ngb"], Fixed(Str("")))
    case 19 => Alias("NGB ID", ["NGB ID", "ngb_id"], Fixed(Str("")))
    case _ => Alias("UCI ID", ["UCI ID", "uci_id"], Fixed(Str("")))
  }

  function FallbackValue(f: Fallback, eventKey: Json, pen: Json): Json {
    match f
    case Fixed(v) => v
    case DocumentEventKey => eventKey
    case DocumentPen => pen
  }

  /** The value the alias table gives column `i` of a record. */
  function Resolve(result: Record, i: nat, eventKey: Json, pen: Json): Json
    requires i < |FieldNames|
  {
    FirstPresent(result, AliasOf(i).keys, FallbackValue(AliasOf(i).fallback, eventKey, pen))
  }

  /** The alias table lists the columns in header order, and every column
      tries its own (PascalCase) name first, then at least one other key. */
  lemma AliasColumnsAreHeader(i: nat)
    requires i < |FieldNames|
    ensures AliasOf(i).column == FieldNames[i]
    ensures |AliasOf(i).keys| >= 2 && AliasOf(i).keys[0] == FieldNames[i]
  {
  }

  // One lemma per column: each unfolds that column's lookup chain, which
  // keeps every proof obligation small.

  lemma EventKeyColumnRule(result: Record, eventKey: Json, pen: Json)
    ensures Column(MapRecord(result, eventKey, pen), 0) == Resolve(result, 0, eventKey, pen)
  {
    FirstPresentTwo(result, "EventKey", "event_key", eventKey);
  }

  lemma PenColumnRule(result: Record, eventKey: Json, pen: Json)
    ensures Column(MapRecord(result, eventKey, pen), 1) == Resolve(result, 1, eventKey, pen)
  {
    FirstPresentTwo(result, "Pen", "pen", pen);
  }

  lemma PositionColumnRule(result: Record, eventKey: Json, pen: Json)
    ensures Column(MapRecord(result, eventKey, pen), 2) == Resolve(result, 2, eventKey, pen)
  {
    FirstPresentTwo(result, "Position", "position", Str(""));
  }

  lemma NameColumnRule(result: Record, eventKey: Json, pen: Json)
    ensures Column(MapRecord(result, eventKey, pen), 3) == Resolve(result, 3, eventKey, pen)
  {
    FirstPresentTwo(result, "Name", "name", Str(""));
  }

  lemma TeamColumnRule(result: Record, eventKey: Json, pen: Json)
    ensures Column(MapRecord(result, eventKey, pen), 4) == Resolve(result, 4, eventKey, pen)
  {
    FirstPresentTwo(result, "Team", "team", Str(""));
  }

  lemma CountryColumnRule(result: Record, eventKey: Json, pen: Json)
    ensures Column(MapRecord(result, eventKey, pen), 5) == Resolve(result, 5, eventKey, pen)
  {
    FirstPresentTwo(result, "Country", "country", Str(""));
  }

  lemma TimeColumnRule(result: Record, eventKey: Json, pen: Json)
    ensures Column(MapRecord(result, eventKey, pen), 6) == Resolve(result, 6, eventKey, pen)
  {
    FirstPresentTwo(result, "Time", "time", Int(0));
  }

  lemma DeltaTimeColumnRule(result: Record, eventKey: Json, pen: Json)
    ensures Column(MapRecord(result, eventKey, pen), 7) == Resolve(result, 7, eventKey, pen)
  {
    FirstPresentTwo(result, "DeltaTime", "delta_time", Int(0));
  }

  lemma DistanceColumnRule(result: Record, eventKey: Json, pen: Json)
    ensures Column(MapRecord(result, eventKey, pen), 8) == Resolve(result, 8, eventKey, pen)
  {
    FirstPresentTwo(result, "Distance", "distance", DefaultDistance);
  }

  lemma DeltaDistanceColumnRule(result: Record, eventKey: Json, pen: Json)
    ensures Column(MapRecord(result, eventKey, pen), 9) == Resolve(result, 9, eventKey, pen)
  {
    FirstPresentTwo(result, "DeltaDistance", "delta_distance", Int(0));
  }

  lemma PointsColumnRule(result: Record, eventKey: Json, pen: Json)
    ensures Column(MapRecord(result, eventKey, pen), 10) == Resolve(result, 10, eventKey, pen)
  {
    FirstPresentTwo(result, "Points", "points", Int(0));
  }

  lemma GenderColumnRule(result: Record, eventKey: Json, pen: Json)
    ensures Column(MapRecord(result, eventKey, pen), 11) == Resolve(result, 11, eventKey, pen)
  {
    FirstPresentTwo(result, "Gender", "gender", Str(""));
  }

  lemma UIDColumnRule(result: Record, eventKey: Json, pen: Json)
    ensures Column(MapRecord(result, eventKey, pen), 12) == Resolve(result, 12, eventKey, pen)
  {
    FirstPresentThree(result, "UID", "uid", "user_id", Str(""));
  }

  lemma ARRColumnRule(result: Record, eventKey: Json, pen: Json)
    ensures Column(MapRecord(result, eventKey, pen), 13) == Resolve(result, 13, eventKey, pen)
  {
    FirstPresentTwo(result, "ARR", "arr", Str(""));
  }

  lemma ARRBandColumnRule(result: Record, eventKey: Json, pen: Json)
    ensures Column(MapRecord(result, eventKey, pen), 14) == Resolve(result, 14, eventKey, pen)
  {
    FirstPresentTwo(result, "ARRBand", "arr_band", Str(""));
  }

  lemma EventRatingColumnRule(result: Record, eventKey: Json, pen: Json)
    ensures Column(MapRecord(result, eventKey, pen), 15) == Resolve(result, 15, eventKey, pen)
  {
    FirstPresentTwo(result, "EventRating", "event_rating", Str(""));
  }

  lemma EventRatingBandColumnRule(result: Record, eventKey: Json, pen: Json)
    ensures Column(MapRecord(result, eventKey, pen), 16) == Resolve(result, 16, eventKey, pen)
  {
    FirstPresentTwo(result, "EventRatingBand", "event_rating_band", Str(""));
  }

  lemma AgeBandColumnRule(result: Record, eventKey: Json, pen: Json)
    ensures Column(MapRecord(result, eventKey, pen), 17) == Resolve(result, 17, eventKey, pen)
  {
    FirstPresentTwo(result, "AgeBand", "age_band", Str(""));
  }

  lemma NGBColumnRule(result: Record, eventKey: Json, pen: Json)
    ensures Column(MapRecord(result, eventKey, pen), 18) == Resolve(result, 18, eventKey, pen)
  {
    FirstPresentTwo(result, "NGB", "ngb", Str(""));
  }

  lemma NGBIDColumnRule(result: Record, eventKey: Json, pen: Json)
    ensures Column(MapRecord(result, eventKey, pen), 19) == Resolve(result, 19, eventKey, pen)
  {
    FirstPresentTwo(result, "NGB ID", "ngb_id", Str(""));
  }

  lemma UCIIDColumnRule(result: Record, eventKey: Json, pen: Json)
    ensures Column(MapRecord(result, eventKey, pen), 20) == Resolve(result, 20, eventKey, pen)
  {
    FirstPresentTwo(result, "UCI ID", "uci_id", Str(""));
  }

  /** The source's row dict agrees, column by column, with the alias table:
      every column holds the value of its first candidate key present in
      the record, else its fallback. */
  lemma {:induction false} RowFollowsAliasTable(result: Record, eventKey: Json, pen: Json, i: nat)
    requires i < |FieldNames|
    ensures Column(MapRecord(result, eventKey, pen), i) == Resolve(result, i, eventKey, pen)
  {
    if i == 0 {
      EventKeyColumnRule(result, eventKey, pen);
    } else if i == 1 {
      PenColumnRule(result, eventKey, pen);
    } else if i == 2 {
      PositionColumnRule(result, eventKey, pen);
    } else if i == 3 {
      NameColumnRule(result, eventKey, pen);
    } else if i == 4 {
      TeamColumnRule(result, eventKey, pen);
    } else if i == 5 {
      CountryColumnRule(result, eventKey, pen);
    } else if i == 6 {
      TimeColumnRule(result, eventKey, pen);
    } else if i == 7 {
      DeltaTimeColumnRule(result, eventKey, pen);
    } else if i == 8 {
      DistanceColumnRule(result, eventKey, pen);
    } else if i == 9 {
      DeltaDistanceColumnRule(result, eventKey, pen);
    } else if i == 10 {
      PointsColumnRule(result, eventKey, pen);
    } else if i == 11 {
      GenderColumnRule(result, eventKey, pen);
    } else if i == 12 {
      UIDColumnRule(result, eventKey, pen);
    } else if i == 13 {
      ARRColumnRule(result, eventKey, pen);
    } else if i == 14 {
      ARRBandColumnRule(result, eventKey, pen);
    } else if i == 15 {
      EventRatingColumnRule(result, eventKey, pen);
    } else if i == 16 {
      EventRatingBandColumnRule(result, eventKey, pen);
    } else if i == 17 {
      AgeBandColumnRule(result, eventKey, pen);
    } else if i == 18 {
      NGBColumnRule(result, eventKey, pen);
    } else if i == 19 {
      NGBIDColumnRule(result, eventKey, pen);
    } else {
      UCIIDColumnRule(result, eventKey, pen);
    }
  }

  /** Lookup precedence for every column: the first candidate key present in
      the record gives the value, even when that value is `null` or empty;
      the fallback is used only when no candidate key is present. */
  lemma ColumnLookup(result: Record, eventKey: Json, pen: Json, i: nat)
    requires i < |FieldNames|
    ensures forall j: nat :: FirstPresentAt(result, AliasOf(i).keys, j) ==>
      Column(MapRecord(result, eventKey, pen), i) == result[AliasOf(i).keys[j]]
    ensures (forall j :: 0 <= j < |AliasOf(i).keys| ==> AliasOf(i).keys[j] !in result) ==>
      Column(MapRecord(result, eventKey, pen), i) == FallbackValue(AliasOf(i).fallback, eventKey, pen)
  {
    RowFollowsAliasTable(result, eventKey, pen, i);
    FirstPresentWins(result, AliasOf(i).keys, FallbackValue(AliasOf(i).fallback, eventKey, pen));
  }

  /** Column `i` of a written data row sits under header cell `i`, which
      names the column's first candidate key, and holds that column's
      alias-table lookup for the record. */
  lemma DataCellUnderHeader(result: Record, eventKey: Json, pen: Json, i: nat)
    requires i < |FieldNames|
    ensures |HeaderCells()| == |Cells(MapRecord(result, eventKey, pen))| == |FieldNames|
    ensures HeaderCells()[i] == Str(AliasOf(i).column) == Str(AliasOf(i).keys[0])
    ensures Cells(MapRecord(result, eventKey, pen))[i] == Resolve(result, i, eventKey, pen)
  {
    AliasColumnsAreHeader(i);
    RowFollowsAliasTable(result, eventKey, pen, i);
  }
}
