/** The LMP enrichment pipeline of `DataProcessor` (processor.py): input
    validation, cleaning (timestamp parsing, de-duplication on timestamp and
    location, ordering, whitespace and numeric clean-up), calendar fields,
    per-location hourly statistics joined back onto every row, derived
    congestion/loss/completeness fields, and the output check. A DataFrame
    built from the raw records is a sequence of rows, each a map from column
    name to value; a column exists when some row has it. */
module Processor {
  import opened Base
  import opened Text
  import opened Json
  import opened Calendar
  import opened Tables

  type Row = map<string, Value>

  const RequiredColumns: seq<string> :=
    ["timestamp", "location_id", "lmp_total", "energy_component", "congestion_component", "loss_component"]
  const CriticalColumns: seq<string> := ["timestamp", "location_id", "lmp_total"]
  const NumericColumns: seq<string> := ["lmp_total", "energy_component", "congestion_component", "loss_component"]

  /** `col in df.columns` for `pd.DataFrame(rows)`. */
  predicate HasColumn(rows: seq<Row>, col: string) {
    exists i :: 0 <= i < |rows| && col in rows[i]
  }

  /** A missing cell and an explicit `None` are both null to `isnull()`. */
  predicate IsNull(row: Row, col: string) {
    col !in row || row[col] == VNull
  }

  /** `[col for col in required if col not in df.columns]` */
  function MissingColumns(required: seq<string>, rows: seq<Row>): (r: seq<string>)
    ensures forall c :: c in r <==> c in required && !HasColumn(rows, c)
    ensures |r| <= |required|
  {
    if required == [] then []
    else (if HasColumn(rows, required[0]) then [] else [required[0]]) + MissingColumns(required[1..], rows)
  }

  /** `df[col].isnull().sum()` */
  function NullCount(rows: seq<Row>, col: string): (r: nat)
    ensures r == 0 <==> forall i :: 0 <= i < |rows| ==> !IsNull(rows[i], col)
    ensures r <= |rows|
  {
    if rows == [] then 0
    else (if IsNull(rows[0], col) then 1 else 0) + NullCount(rows[1..], col)
  }

  /** A required column is missing or a critical column holds a null. */
  predicate Incomplete(rows: seq<Row>) {
    || (exists c :: c in RequiredColumns && !HasColumn(rows, c))
    || (exists i, c :: 0 <= i < |rows| && c in CriticalColumns && IsNull(rows[i], c))
  }

  /** A value Python can compare with an int: `True >= -1000` works, `"25" >= -1000` raises. */
  predicate IsNumber(v: Value) {
    v.VInt? || v.VReal? || v.VBool?
  }

  /** Every present, non-null price compares with a number. */
  predicate PricesComparable(rows: seq<Row>) {
    forall i :: 0 <= i < |rows| && !IsNull(rows[i], "lmp_total") ==> IsNumber(rows[i]["lmp_total"])
  }

  /** The first present, non-null price that is not a number. */
  function Incomparable(rows: seq<Row>): (r: Option<Value>)
    ensures r.None? <==> PricesComparable(rows)
    ensures r.Some? ==> !IsNumber(r.value)
  {
    if rows == [] then None
    else if !IsNull(rows[0], "lmp_total") && !IsNumber(rows[0]["lmp_total"]) then
      Some(rows[0]["lmp_total"])
    else
      var r := Incomparable(rows[1..]);
      assert PricesComparable(rows[1..]) && !IsNull(rows[0], "lmp_total") ==> PricesComparable(rows) by {
        if PricesComparable(rows[1..]) && !IsNull(rows[0], "lmp_total") {
          forall i | 0 <= i < |rows| && !IsNull(rows[i], "lmp_total") ensures IsNumber(rows[i]["lmp_total"]) {
            if i > 0 { assert rows[i] == rows[1..][i - 1]; }
          }
        }
      }
      assert PricesComparable(rows[1..]) && IsNull(rows[0], "lmp_total") ==> PricesComparable(rows) by {
        if PricesComparable(rows[1..]) && IsNull(rows[0], "lmp_total") {
          forall i | 0 <= i < |rows| && !IsNull(rows[i], "lmp_total") ensures IsNumber(rows[i]["lmp_total"]) {
            assert i > 0 && rows[i] == rows[1..][i - 1];
          }
        }
      }
      assert PricesComparable(rows) ==> PricesComparable(rows[1..]) by {
        if PricesComparable(rows) {
          forall i | 0 <= i < |rows[1..]| && !IsNull(rows[1..][i], "lmp_total") ensures IsNumber(rows[1..][i]["lmp_total"]) {
            assert rows[1..][i] == rows[i + 1];
          }
        }
      }
      r
  }

  /** The `TypeError` of comparing `v` with an int. */
  function CompareError(v: Value): string {
    "'>=' not supported between instances of '" + v.TypeName() + "' and 'int'"
  }

  /** `_validate_input_data`: false exactly when a required column is missing
      or a critical column holds a null. Otherwise the range check
      `between(-1000, 1000)` runs, which only logs out-of-range prices but
      raises `TypeError` when a price is not a number. */
  function ValidateInput(rows: seq<Row>): (r: Result<bool>)
    ensures r == Ok(false) <==> Incomplete(rows)
    ensures r == Ok(true) <==> !Incomplete(rows) && PricesComparable(rows)
    ensures r.Err? <==> !Incomplete(rows) && !PricesComparable(rows)
    ensures r.Err? ==> r == Err(CompareError(Incomparable(rows).value))
  {
    var missing := MissingColumns(RequiredColumns, rows);
    if |missing| > 0 then
      assert missing[0] in missing;
      Ok(false)
    else
      var nulls := NullCount(rows, "timestamp") + NullCount(rows, "location_id") + NullCount(rows, "lmp_total");
      assert "timestamp" in CriticalColumns && "location_id" in CriticalColumns && "lmp_total" in CriticalColumns;
      forall c | c in CriticalColumns ensures NullCount(rows, c) == 0 <==> forall i :: 0 <= i < |rows| ==> !IsNull(rows[i], c) {
      }
      if nulls != 0 then Ok(false)
      else
        match Incomparable(rows)
        case None => Ok(true)
        case Some(v) => Err(CompareError(v))
  }

  /** The rows whose `lmp_total` is a number outside [-1000, 1000] (logged only). */
  function LmpOutliers(rows: seq<Row>): (r: nat)
    ensures r <= |rows|
  {
    if rows == [] then 0
    else
      var v := if "lmp_total" in rows[0] then rows[0]["lmp_total"] else VNull;
      var out := match v
        case VInt(i) => i < -1000 || i > 1000
        case VReal(x) => x < -1000.0 || x > 1000.0
        case _ => false;
      (if out then 1 else 0) + LmpOutliers(rows[1..])
  }

  /** Replacing a numeric price by any other number, however far out of
      range, never changes the verdict. */
  lemma ValidateIgnoresPriceRange(rows: seq<Row>, i: nat, v: Value)
    requires i < |rows| && "lmp_total" in rows[i] && IsNumber(rows[i]["lmp_total"]) && IsNumber(v)
    ensures ValidateInput(rows[i := rows[i]["lmp_total" := v]]) == ValidateInput(rows)
  {
    PriceChangeKeepsShape(rows, i, v);
    PriceChangeKeepsComparable(rows, i, v);
    PriceChangeKeepsIncomparable(rows, i, v);
  }

  lemma {:induction false} PriceChangeKeepsIncomparable(rows: seq<Row>, i: nat, v: Value)
    requires i < |rows| && "lmp_total" in rows[i] && IsNumber(rows[i]["lmp_total"]) && IsNumber(v)
    ensures Incomparable(rows[i := rows[i]["lmp_total" := v]]) == Incomparable(rows)
  {
    var rows' := rows[i := rows[i]["lmp_total" := v]];
    if i == 0 {
      assert rows'[1..] == rows[1..];
    } else {
      assert rows'[0] == rows[0];
      assert rows'[1..] == rows[1..][i - 1 := rows[1..][i - 1]["lmp_total" := v]];
      PriceChangeKeepsIncomparable(rows[1..], i - 1, v);
    }
  }

  lemma PriceChangeKeepsShape(rows: seq<Row>, i: nat, v: Value)
    requires i < |rows| && "lmp_total" in rows[i] && v != VNull && rows[i]["lmp_total"] != VNull
    ensures Incomplete(rows[i := rows[i]["lmp_total" := v]]) == Incomplete(rows)
  {
    var rows' := rows[i := rows[i]["lmp_total" := v]];
    forall c ensures HasColumn(rows', c) == HasColumn(rows, c) {
      if HasColumn(rows, c) {
        var k :| 0 <= k < |rows| && c in rows[k];
        assert c in rows'[k];
      }
      if HasColumn(rows', c) {
        var k :| 0 <= k < |rows'| && c in rows'[k];
        assert c in rows[k];
      }
    }
    forall k, c | 0 <= k < |rows| && c in CriticalColumns ensures IsNull(rows'[k], c) == IsNull(rows[k], c) {
    }
  }

  lemma PriceChangeKeepsComparable(rows: seq<Row>, i: nat, v: Value)
    requires i < |rows| && "lmp_total" in rows[i] && IsNumber(rows[i]["lmp_total"]) && IsNumber(v)
    ensures PricesComparable(rows[i := rows[i]["lmp_total" := v]]) == PricesComparable(rows)
  {
    var rows' := rows[i := rows[i]["lmp_total" := v]];
    forall k | 0 <= k < |rows| && !IsNull(rows[k], "lmp_total")
      ensures !IsNull(rows'[k], "lmp_total") && (IsNumber(rows'[k]["lmp_total"]) <==> IsNumber(rows[k]["lmp_total"]))
    {
    }
  }

  /** A cleaned row. */
  datatype Record = Record(
    time: Instant, locationId: string, locationName: Option<string>,
    lmp: real, energy: real, congestion: real, loss: real)

  /** `pd.to_numeric(errors='coerce')` followed by `fillna(0)`. */
  function Coerce(v: Value): (r: real)
    ensures v.VInt? ==> r == v.i as real
    ensures v.VReal? ==> r == v.r
    ensures v.VStr? ==> r == ParseDecimal(v.s).GetOr(0.0)
    ensures v.VNull? || v.VList? || v.VDict? || v.VBytes? || v.VTable? ==> r == 0.0
  {
    match v
    case VInt(i) => i as real
    case VReal(x) => x
    case VBool(b) => if b then 1.0 else 0.0
    case VStr(s) => ParseDecimal(s).GetOr(0.0)
    case _ => 0.0
  }

  function Numeric(row: Row, col: string): real {
    if col in row then Coerce(row[col]) else 0.0
  }

  /** `str.strip()` on a column: strings are stripped, anything else is NaN. */
  function StripCell(row: Row, col: string): Option<string> {
    if col in row && row[col].VStr? then Some(Strip(row[col].s)) else None
  }

  /** A row whose timestamp has been parsed. */
  datatype Stamped = Stamped(time: Instant, row: Row)

  /** `pd.to_datetime(df['timestamp'])`, with the parser as a parameter; any
      unparseable value fails the whole column. */
  function ParseTimes(rows: seq<Row>, parseTime: Value -> Option<Instant>): (r: Result<seq<Stamped>>)
    ensures r.Ok? ==> |r.value| == |rows| && forall i :: 0 <= i < |rows| ==> r.value[i].row == rows[i]
  {
    if rows == [] then Ok([])
    else
      var v := if "timestamp" in rows[0] then rows[0]["timestamp"] else VNull;
      match parseTime(v)
      case None => Err("Unknown datetime string format, unable to parse: " + Str(v))
      case Some(t) =>
        var rest :- ParseTimes(rows[1..], parseTime);
        Ok([Stamped(t, rows[0])] + rest)
  }

  /** The stripped, numerically coerced record of a parsed row. */
  function ToRecord(s: Stamped): (r: Record)
    ensures r.time == s.time
    ensures "location_id" in s.row && s.row["location_id"].VStr? ==> r.locationId == Strip(s.row["location_id"].s)
    ensures !("location_id" in s.row && s.row["location_id"].VStr?) ==> r.locationId == ""
    ensures "location_name" in s.row && s.row["location_name"].VStr? ==> r.locationName == Some(Strip(s.row["location_name"].s))
    ensures !("location_name" in s.row && s.row["location_name"].VStr?) ==> r.locationName.None?
    ensures "lmp_total" !in s.row ==> r.lmp == 0.0
    ensures "lmp_total" in s.row ==> r.lmp == Coerce(s.row["lmp_total"])
    ensures r.energy == (if "energy_component" in s.row then Coerce(s.row["energy_component"]) else 0.0)
    ensures r.congestion == (if "congestion_component" in s.row then Coerce(s.row["congestion_component"]) else 0.0)
    ensures r.loss == (if "loss_component" in s.row then Coerce(s.row["loss_component"]) else 0.0)
  {
    var id := StripCell(s.row, "location_id");
    Record(s.time, id.GetOr(""), StripCell(s.row, "location_name"),
      Numeric(s.row, "lmp_total"), Numeric(s.row, "energy_component"),
      Numeric(s.row, "congestion_component"), Numeric(s.row, "loss_component"))
  }

  function ToRecords(ss: seq<Stamped>): (r: seq<Record>)
    ensures |r| == |ss|
  {
    if ss == [] then [] else [ToRecord(ss[0])] + ToRecords(ss[1..])
  }

  /** The identity `drop_duplicates(subset=['timestamp', 'location_id'])` uses. */
  function Key(r: Record): (int, string) {
    (r.time.seconds, r.locationId)
  }

  /** The order `sort_values(['timestamp', 'location_id'])` establishes. */
  function Order(r: Record): SortKey {
    SortKey(r.time.seconds, r.locationId)
  }

  function RawId(s: Stamped): string {
    if "location_id" in s.row && s.row["location_id"].VStr? then s.row["location_id"].s else ""
  }

  /** The raw `location_id` cell as `drop_duplicates` compares it: a missing
      cell and `None` are both null and equal to each other. */
  function RawCell(s: Stamped): (r: Option<Value>)
    ensures r.None? <==> IsNull(s.row, "location_id")
    ensures r.Some? ==> r.value == s.row["location_id"]
  {
    if IsNull(s.row, "location_id") then None else Some(s.row["location_id"])
  }

  function RawKey(s: Stamped): (int, Option<Value>) {
    (s.time.seconds, RawCell(s))
  }

  function RawOrder(s: Stamped): SortKey {
    SortKey(s.time.seconds, RawId(s))
  }

  /** `.str` refuses a column pandas stores with a numeric or boolean dtype:
      one that has a non-null cell and whose non-null cells are all numbers,
      or all booleans. Any other column is accepted, and a cell that is not a
      string becomes NaN. */
  predicate StrRefused(rows: seq<Row>, col: string) {
    && (exists i :: 0 <= i < |rows| && !IsNull(rows[i], col))
    && (|| (forall i :: 0 <= i < |rows| && !IsNull(rows[i], col) ==> rows[i][col].VInt? || rows[i][col].VReal?)
        || (forall i :: 0 <= i < |rows| && !IsNull(rows[i], col) ==> rows[i][col].VBool?))
  }

  /** The failures cleaning can meet after the timestamps are parsed, in the
      order the statements meet them: `drop_duplicates` on a missing
      `location_id`, the two `.str.strip()` calls, and `to_numeric` on a missing
      numeric column. */
  function CleanPrecheck(rows: seq<Row>): (r: Result<bool>)
    ensures r.Err? <==>
      || !HasColumn(rows, "location_id") || !HasColumn(rows, "location_name")
      || StrRefused(rows, "location_name") || StrRefused(rows, "location_id")
      || MissingColumns(NumericColumns, rows) != []
    ensures !HasColumn(rows, "location_id") ==> r == Err("'location_id'")
    ensures HasColumn(rows, "location_id") && !HasColumn(rows, "location_name") ==> r == Err("'location_name'")
  {
    if !HasColumn(rows, "location_id") then Err("'location_id'")
    else if !HasColumn(rows, "location_name") then Err("'location_name'")
    else if StrRefused(rows, "location_name") || StrRefused(rows, "location_id") then
      Err("Can only use .str accessor with string values!")
    else
      var missing := MissingColumns(NumericColumns, rows);
      if |missing| > 0 then Err("'" + missing[0] + "'") else Ok(true)
  }

  /** `pd.to_datetime(df['timestamp'])` runs first: a missing column is a
      `KeyError`, an unparseable value fails the whole column. */
  function ParsedFirst(rows: seq<Row>, parseTime: Value -> Option<Instant>): (r: Result<seq<Stamped>>)
    ensures !HasColumn(rows, "timestamp") ==> r == Err("'timestamp'")
    ensures HasColumn(rows, "timestamp") ==> r == ParseTimes(rows, parseTime)
  {
    if !HasColumn(rows, "timestamp") then Err("'timestamp'") else ParseTimes(rows, parseTime)
  }

  /** `_clean_data` as written: duplicates are dropped and rows sorted on the raw
      `location_id`, which is only stripped afterwards. */
  function CleanAsWritten(rows: seq<Row>, parseTime: Value -> Option<Instant>): (r: Result<seq<Record>>)
    ensures r.Ok? ==> |r.value| <= |rows|
  {
    var stamped :- ParsedFirst(rows, parseTime);
    var _ :- CleanPrecheck(rows);
    Ok(DedupSortRawIds(stamped))
  }

  /** Lines 178-189 as written: de-duplicate and sort on the raw id, then strip. */
  function DedupSortRawIds(stamped: seq<Stamped>): (r: seq<Record>)
    ensures |r| <= |stamped|
  {
    DedupSortProperties(stamped, RawKey, RawOrder);
    ToRecords(Sort(Dedup(stamped, RawKey), RawOrder))
  }

  /** Ids that differ as cells are never merged: two rows at one instant whose
      `location_id` cells differ both survive, strings or not. */
  lemma RawDedupKeepsDistinctCells(a: Stamped, b: Stamped)
    requires a.time.seconds == b.time.seconds && RawCell(a) != RawCell(b)
    ensures |DedupSortRawIds([a, b])| == 2
  {
    DedupPair(a, b, RawKey);
    DedupSortProperties([a, b], RawKey, RawOrder);
  }

  /** Lines 178-189 with the strip first: de-duplicate and sort the stripped records. */
  function DedupSortStrippedIds(stamped: seq<Stamped>): (r: seq<Record>)
    ensures |r| <= |stamped|
  {
    var records := ToRecords(stamped);
    DedupSortProperties(records, Key, Order);
    Sort(Dedup(records, Key), Order)
  }

  /** `_clean_data` with `location_id` stripped before it is used as a key, so
      that the de-duplication and the order hold for the ids the output carries. */
  function Clean(rows: seq<Row>, parseTime: Value -> Option<Instant>): (r: Result<seq<Record>>)
    ensures r.Ok? ==> |r.value| <= |rows|
  {
    var stamped :- ParsedFirst(rows, parseTime);
    var _ :- CleanPrecheck(rows);
    Ok(DedupSortStrippedIds(stamped))
  }

  /** After cleaning no two rows share timestamp and location, the rows are
      ordered by timestamp then location, and nothing is invented. */
  lemma DedupSortStrippedProperties(stamped: seq<Stamped>)
    ensures var out := DedupSortStrippedIds(stamped);
      && NoDuplicates(KeysOf(out, Key))
      && SortedBy(out, Order)
      && multiset(out) <= multiset(ToRecords(stamped))
  {
    var records := ToRecords(stamped);
    assert DedupSortStrippedIds(stamped) == Sort(Dedup(records, Key), Order);
    DedupSortProperties(records, Key, Order);
  }

  /** Cleaning keeps every (timestamp, location) of the input. */
  lemma DedupSortStrippedKeepsEvery(stamped: seq<Stamped>)
    ensures var out := DedupSortStrippedIds(stamped);
      var records := ToRecords(stamped);
      forall i :: 0 <= i < |records| ==> exists j :: 0 <= j < |out| && Key(out[j]) == Key(records[i])
  {
    var records := ToRecords(stamped);
    assert DedupSortStrippedIds(stamped) == Sort(Dedup(records, Key), Order);
    DedupSortKeepsEvery(records, Key, Order);
  }

  /** Each record cleaning keeps is the first occurrence of its (timestamp, location). */
  lemma DedupSortStrippedKeepsFirst(stamped: seq<Stamped>)
    ensures var out := DedupSortStrippedIds(stamped);
      forall j :: 0 <= j < |out| ==> FirstWithKey(ToRecords(stamped), Key, Key(out[j])) == Some(out[j])
  {
    var records := ToRecords(stamped);
    var out := Sort(Dedup(records, Key), Order);
    assert DedupSortStrippedIds(stamped) == out;
    forall j | 0 <= j < |out| ensures FirstWithKey(records, Key, Key(out[j])) == Some(out[j]) {
      DedupSortKeepsFirst(records, Key, Order, j);
    }
  }

  /** A successful cleaning is the de-duplicated, ordered records of all the parsed rows. */
  lemma CleanIsDedupSort(rows: seq<Row>, parseTime: Value -> Option<Instant>)
    requires Clean(rows, parseTime).Ok?
    ensures ParseTimes(rows, parseTime).Ok? && |ParseTimes(rows, parseTime).value| == |rows|
    ensures Clean(rows, parseTime).value == DedupSortStrippedIds(ParseTimes(rows, parseTime).value)
  {
  }

  /** The instant 1970-01-01 00:00, a Thursday. */
  function Epoch(): Instant {
    Instant(0, "1970-01-01", 1970, 1, 1, 0, 0, 3, 1, 1, 1)
  }

  /** A parsed row at the epoch holding only a location id. */
  function AtEpoch(id: string): Stamped {
    Stamped(Epoch(), map["location_id" := VStr(id)])
  }

  lemma StripExamples()
    ensures Strip("A ") == "A" && Strip("A") == "A"
  {
    assert TrimLeft("A ", IsSpace) == "A ";
    assert TrimRight("A ", IsSpace) == "A" by {
      assert TrimRight("A", IsSpace) == "A";
    }
    assert TrimLeft("A", IsSpace) == "A";
  }

  function ExampleStamped(): seq<Stamped> {
    [AtEpoch("A"), AtEpoch("A ")]
  }

  lemma ExampleRawDedupSort()
    ensures Sort(Dedup(ExampleStamped(), RawKey), RawOrder) == ExampleStamped()
  {
    var s := ExampleStamped();
    assert RawId(s[0]) == "A" && RawId(s[1]) == "A ";
    assert RawKey(s[0]) != RawKey(s[1]);
    DedupPair(s[0], s[1], RawKey);
    assert StrLe("A", "A ");
    SortPair(s[0], s[1], RawOrder);
  }

  lemma DedupPair<T, K>(a: T, b: T, key: T -> K)
    ensures key(a) != key(b) ==> Dedup([a, b], key) == [a, b]
    ensures key(a) == key(b) ==> Dedup([a, b], key) == [a]
  {
    var seen: set<K> := {};
    assert [a, b][1..] == [b] && [b][1..] == [];
    assert Dedup([a, b], key) == [a] + DedupFrom([b], key, seen + {key(a)});
    assert seen + {key(a)} == {key(a)};
    if key(b) == key(a) {
      assert DedupFrom([b], key, {key(a)}) == DedupFrom([], key, {key(a)});
    } else {
      assert DedupFrom([b], key, {key(a)}) == [b] + DedupFrom([], key, {key(a)} + {key(b)});
    }
  }

  lemma SortPair<T>(a: T, b: T, order: T -> SortKey)
    requires KeyLe(order(a), order(b))
    ensures Sort([a, b], order) == [a, b]
  {
    assert [a, b][1..] == [b];
    assert Sort([b], order) == [b];
  }

  lemma AtEpochRecord(id: string)
    ensures ToRecord(AtEpoch(id)) == Record(Epoch(), Strip(id), None, 0.0, 0.0, 0.0, 0.0)
  {
    var row := AtEpoch(id).row;
    assert StripCell(row, "location_id") == Some(Strip(id));
    assert StripCell(row, "location_name") == None;
    assert "lmp_total" !in row && "energy_component" !in row;
    assert "congestion_component" !in row && "loss_component" !in row;
  }

  lemma ExampleRecords()
    ensures var r := Record(Epoch(), "A", None, 0.0, 0.0, 0.0, 0.0);
      ToRecords(ExampleStamped()) == [r, r]
  {
    var s := ExampleStamped();
    ToRecordsPair(s);
    AtEpochRecord("A");
    AtEpochRecord("A ");
    StripExamples();
  }

  lemma ToRecordsPair(s: seq<Stamped>)
    requires |s| == 2
    ensures ToRecords(s) == [ToRecord(s[0]), ToRecord(s[1])]
  {
    assert s[1..][1..] == [];
  }

  /** Two ids that differ only in a trailing blank both survive the as-written
      de-duplication and then carry the same (timestamp, location) key; the
      corrected order keeps one row. */
  lemma RawIdDedupKeepsStrippedDuplicates()
    ensures var written := DedupSortRawIds(ExampleStamped());
      |written| == 2 && Key(written[0]) == Key(written[1])
    ensures |DedupSortStrippedIds(ExampleStamped())| == 1
  {
    ExampleRawDedupSort();
    ExampleRecords();
    var r := Record(Epoch(), "A", None, 0.0, 0.0, 0.0, 0.0);
    DedupPair(r, r, Key);
    assert Sort([r], Order) == [r];
  }

  /** Calendar flags and classifications of a row. */
  datatype Timed = Timed(
    rec: Record, isWeekend: bool, isPeakHour: bool, isBusinessHour: bool,
    season: Option<string>, timePeriod: string)

  /** `day_of_week.isin([5, 6])`, Monday being 0. */
  predicate IsWeekend(dayOfWeek: int) {
    dayOfWeek in {5, 6}
  }

  /** `hour_of_day.between(7, 22)` */
  predicate IsPeakHour(hour: int) {
    7 <= hour <= 22
  }

  /** `hour_of_day.between(9, 17)` */
  predicate IsBusinessHour(hour: int) {
    9 <= hour <= 17
  }

  /** The meteorological seasons, Winter starting in December. */
  const Seasons: seq<string> := ["Winter", "Spring", "Summer", "Fall"]

  /** `df['month'].map({...})`: a month without an entry maps to NaN. */
  function Season(month: int): (r: Option<string>)
    ensures r.Some? <==> 1 <= month <= 12
    ensures 1 <= month <= 12 ==> r == Some(Seasons[(month % 12) / 3])
  {
    var table := map[12 := "Winter", 1 := "Winter", 2 := "Winter",
                     3 := "Spring", 4 := "Spring", 5 := "Spring",
                     6 := "Summer", 7 := "Summer", 8 := "Summer",
                     9 := "Fall", 10 := "Fall", 11 := "Fall"];
    if month in table then Some(table[month]) else None
  }

  /** 'Off-Peak', overwritten by 'Peak' for weekday peak hours, overwritten by
      'Weekend' on weekends. */
  function TimePeriod(weekend: bool, peak: bool): (r: string)
    ensures r in ["Weekend", "Peak", "Off-Peak"]
    ensures r == "Weekend" <==> weekend
    ensures r == "Peak" <==> peak && !weekend
    ensures r == "Off-Peak" <==> !peak && !weekend
  {
    var initial := "Off-Peak";
    var afterPeak := if peak && !weekend then "Peak" else initial;
    if weekend then "Weekend" else afterPeak
  }

  /** `_add_time_fields` for one row. */
  function AddTimeFieldsTo(r: Record): (t: Timed)
    ensures t.rec == r
    ensures t.isWeekend <==> r.time.dayOfWeek == 5 || r.time.dayOfWeek == 6
    ensures t.isPeakHour <==> 7 <= r.time.hour <= 22
    ensures t.isBusinessHour <==> 9 <= r.time.hour <= 17
    ensures t.isBusinessHour ==> t.isPeakHour
    ensures t.timePeriod == (if t.isWeekend then "Weekend" else if t.isPeakHour then "Peak" else "Off-Peak")
    ensures t.season == Season(r.time.month)
  {
    var weekend := IsWeekend(r.time.dayOfWeek);
    var peak := IsPeakHour(r.time.hour);
    Timed(r, weekend, peak, IsBusinessHour(r.time.hour), Season(r.time.month), TimePeriod(weekend, peak))
  }

  function AddTimeFields(rs: seq<Record>): (r: seq<Timed>)
    ensures |r| == |rs| && forall i :: 0 <= i < |rs| ==> r[i] == AddTimeFieldsTo(rs[i])
  {
    if rs == [] then [] else [AddTimeFieldsTo(rs[0])] + AddTimeFields(rs[1..])
  }

  /** The four price columns averaged per hour. */
  datatype Column = Lmp | Energy | Congestion | Loss

  function Price(r: Record, c: Column): real {
    match c
    case Lmp => r.lmp
    case Energy => r.energy
    case Congestion => r.congestion
    case Loss => r.loss
  }

  /** The group an hourly statistic is taken over: location and clock hour. */
  function GroupKey(t: Timed): (string, int) {
    (t.rec.locationId, t.rec.time.HourIndex())
  }

  /** The rows of `ts` in group `k`, in order. */
  function Group(ts: seq<Timed>, k: (string, int)): (r: seq<Timed>)
    ensures forall x :: x in r <==> x in ts && GroupKey(x) == k
    ensures |r| <= |ts|
  {
    if ts == [] then []
    else (if GroupKey(ts[0]) == k then [ts[0]] else []) + Group(ts[1..], k)
  }

  function Prices(g: seq<Timed>, c: Column): (r: seq<real>)
    ensures |r| == |g| && forall i :: 0 <= i < |g| ==> r[i] == Price(g[i].rec, c)
  {
    if g == [] then [] else [Price(g[0].rec, c)] + Prices(g[1..], c)
  }

  function Sum(xs: seq<real>): real {
    if xs == [] then 0.0 else xs[0] + Sum(xs[1..])
  }

  function Min(xs: seq<real>): (r: real)
    requires xs != []
    ensures r in xs && forall i :: 0 <= i < |xs| ==> r <= xs[i]
  {
    if |xs| == 1 then xs[0]
    else
      var m := Min(xs[1..]);
      assert forall i :: 1 <= i < |xs| ==> xs[i] == xs[1..][i - 1];
      if xs[0] <= m then xs[0] else m
  }

  function Max(xs: seq<real>): (r: real)
    requires xs != []
    ensures r in xs && forall i :: 0 <= i < |xs| ==> xs[i] <= r
  {
    if |xs| == 1 then xs[0]
    else
      var m := Max(xs[1..]);
      assert forall i :: 1 <= i < |xs| ==> xs[i] == xs[1..][i - 1];
      if xs[0] >= m then xs[0] else m
  }

  lemma {:induction false} SumBounds(xs: seq<real>, lo: real, hi: real)
    requires forall i :: 0 <= i < |xs| ==> lo <= xs[i] <= hi
    ensures |xs| as real * lo <= Sum(xs) <= |xs| as real * hi
  {
    if xs != [] {
      SumBounds(xs[1..], lo, hi);
    }
  }

  /** The aggregates `agg(['mean', 'min', 'max', 'std', 'count'])` give one column. */
  datatype ColumnStats = ColumnStats(mean: real, min: real, max: real, std: Option<real>, count: nat)

  /** The statistics of a non-empty list of prices; the sample standard
      deviation is a parameter (NaN, for a single value, is `None`). */
  function StatsOf(xs: seq<real>, std: seq<real> -> Option<real>): (r: ColumnStats)
    requires xs != []
    ensures r.count == |xs| > 0
    ensures r.min <= r.mean <= r.max
    ensures r.min in xs && r.max in xs
    ensures forall i :: 0 <= i < |xs| ==> r.min <= xs[i] <= r.max
  {
    var lo, hi := Min(xs), Max(xs);
    MeanBetween(xs, lo, hi);
    ColumnStats(Sum(xs) / |xs| as real, lo, hi, std(xs), |xs|)
  }

  /** The mean lies between any lower and upper bound of the values. */
  lemma MeanBetween(xs: seq<real>, lo: real, hi: real)
    requires xs != []
    requires forall i :: 0 <= i < |xs| ==> lo <= xs[i] <= hi
    ensures lo <= Sum(xs) / |xs| as real <= hi
  {
    SumBounds(xs, lo, hi);
    DivideBetween(Sum(xs), |xs| as real, lo, hi);
  }

  lemma DivideBetween(s: real, n: real, lo: real, hi: real)
    requires n > 0.0 && n * lo <= s <= n * hi
    ensures lo <= s / n <= hi
  {
  }

  /** A row with its hour group's statistics merged in. */
  datatype Hourly = Hourly(timed: Timed, lmp: ColumnStats, energy: ColumnStats, congestion: ColumnStats, loss: ColumnStats)
  {
    function Stats(c: Column): ColumnStats {
      match c
      case Lmp => lmp
      case Energy => energy
      case Congestion => congestion
      case Loss => loss
    }
  }

  function HourlyRow(ts: seq<Timed>, t: Timed, std: seq<real> -> Option<real>): (h: Hourly)
    requires t in ts
    ensures h.timed == t
  {
    var g := Group(ts, GroupKey(t));
    assert t in g;
    Hourly(t, StatsOf(Prices(g, Lmp), std), StatsOf(Prices(g, Energy), std),
      StatsOf(Prices(g, Congestion), std), StatsOf(Prices(g, Loss), std))
  }

  /** `_calculate_hourly_averages`: the group statistics by (location, hour),
      left-merged onto every row. */
  function HourlyAverages(ts: seq<Timed>, std: seq<real> -> Option<real>): (r: seq<Hourly>)
    ensures |r| == |ts| && forall i :: 0 <= i < |ts| ==> r[i] == HourlyRow(ts, ts[i], std)
  {
    seq(|ts|, i requires 0 <= i < |ts| => HourlyRow(ts, ts[i], std))
  }

  /** Every row of a (location, hour) group carries the same statistics; the
      count is the group's size; min ≤ mean ≤ max and every price of the group
      lies between min and max. */
  lemma HourlyGroupProperties(ts: seq<Timed>, std: seq<real> -> Option<real>, i: nat, j: nat, c: Column)
    requires i < |ts| && j < |ts| && GroupKey(ts[i]) == GroupKey(ts[j])
    ensures var out := HourlyAverages(ts, std);
      var s := out[i].Stats(c);
      var g := Group(ts, GroupKey(ts[i]));
      && s == out[j].Stats(c)
      && s.count == |g| >= 1
      && s.min <= s.mean <= s.max
      && s.min <= Price(ts[i].rec, c) <= s.max
      && forall x :: x in g ==> s.min <= Price(x.rec, c) <= s.max
  {
    var g := Group(ts, GroupKey(ts[i]));
    var ps := Prices(g, c);
    assert ts[i] in g;
    forall x | x in g ensures Price(x.rec, c) in ps {
      var k :| 0 <= k < |g| && g[k] == x;
      assert ps[k] == Price(x.rec, c);
    }
  }

  /** All rows of an hour group share their time period, their peak and
      business-hour flags (the location's hour group lies within one clock hour). */
  lemma HourGroupSharesPeriod(ts: seq<Timed>, i: nat, j: nat)
    requires i < |ts| && j < |ts| && GroupKey(ts[i]) == GroupKey(ts[j])
    requires ts[i].rec.time.Valid() && ts[j].rec.time.Valid()
    requires ts[i] == AddTimeFieldsTo(ts[i].rec) && ts[j] == AddTimeFieldsTo(ts[j].rec)
    ensures ts[i].timePeriod == ts[j].timePeriod
    ensures ts[i].isPeakHour == ts[j].isPeakHour && ts[i].isBusinessHour == ts[j].isBusinessHour
  {
    SameHourSameReadings(ts[i].rec.time, ts[j].rec.time);
  }

  /** `pd.cut(bins=[-inf, 0, 5, 15, inf], labels=['None', 'Low', 'Medium', 'High'])`,
      intervals closed on the right. */
  function CongestionLevel(c: real): (r: string)
    ensures r in CongestionLevels
    ensures r == "None" <==> c <= 0.0
    ensures r == "Low" <==> 0.0 < c <= 5.0
    ensures r == "Medium" <==> 5.0 < c <= 15.0
    ensures r == "High" <==> 15.0 < c
  {
    if c <= 0.0 then "None" else if c <= 5.0 then "Low" else if c <= 15.0 then "Medium" else "High"
  }

  const CongestionLevels: seq<string> := ["None", "Low", "Medium", "High"]

  function LevelRank(level: string): nat {
    if level == "None" then 0 else if level == "Low" then 1 else if level == "Medium" then 2 else 3
  }

  /** A larger congestion component never gets a lower level. */
  lemma CongestionLevelMonotone(a: real, b: real)
    requires a <= b
    ensures LevelRank(CongestionLevel(a)) <= LevelRank(CongestionLevel(b))
  {
  }

  /** A float division result: a finite value or an IEEE 754 special value. */
  datatype Float = Finite(x: real) | PosInf | NegInf | NaN

  /** `a / b` on floats: dividing by zero gives ±inf, or NaN for 0/0. */
  function Divide(a: real, b: real): (r: Float)
    ensures b != 0.0 ==> r == Finite(a / b)
    ensures b == 0.0 ==> (r.NaN? <==> a == 0.0)
  {
    if b != 0.0 then Finite(a / b)
    else if a > 0.0 then PosInf
    else if a < 0.0 then NegInf
    else NaN
  }

  /** `clip(lower=0, upper=100)`; NaN stays NaN, shown as `None`. */
  function Clip(f: Float): (r: Option<real>)
    ensures r.Some? ==> 0.0 <= r.value <= 100.0
    ensures r.None? <==> f.NaN?
    ensures f.Finite? && 0.0 <= f.x <= 100.0 ==> r == Some(f.x)
  {
    match f
    case Finite(x) => Some(if x < 0.0 then 0.0 else if x > 100.0 then 100.0 else x)
    case PosInf => Some(100.0)
    case NegInf => Some(0.0)
    case NaN => None
  }

  /** `loss_percentage`: loss over total price in percent, clipped into [0, 100]. */
  function LossPercentage(loss: real, lmp: real): (r: Option<real>)
    ensures r.Some? ==> 0.0 <= r.value <= 100.0
    ensures r.None? <==> loss == 0.0 && lmp == 0.0
    ensures lmp != 0.0 && 0.0 <= loss / lmp * 100.0 <= 100.0 ==> r == Some(loss / lmp * 100.0)
    ensures lmp == 0.0 && loss > 0.0 ==> r == Some(100.0)
  {
    match Divide(loss, lmp)
    case Finite(q) => Clip(Finite(q * 100.0))
    case other => Clip(other)
  }

  /** `lmp_total_count_hourly / 4 * 100`: the share of the hour's four
      fifteen-minute intervals present. */
  function Completeness(count: nat): real {
    count as real / 4.0 * 100.0
  }

  /** An hour is complete exactly when all four intervals are there, and
      completeness exceeds 100 only for more than four. */
  lemma CompletenessProperties(count: nat)
    ensures Completeness(count) == 100.0 <==> count == 4
    ensures Completeness(count) <= 100.0 <==> count <= 4
    ensures Completeness(count) == count as real * 25.0
  {
  }

  /** A fully processed row. */
  datatype Processed = Processed(
    hourly: Hourly, volatility: real, isHighVolatility: bool, hasCongestion: bool,
    congestionLevel: string, lossPercentage: Option<real>, completeness: real,
    isCompleteHour: bool, processingTimestamp: string, dataVersion: string)

  /** `_add_derived_fields` for one row; the 75th-percentile volatility
      threshold and the processing time are parameters. */
  function DeriveRow(h: Hourly, threshold: real, now: string): (p: Processed)
    ensures p.hourly == h
    ensures p.volatility == h.lmp.std.GetOr(0.0)
    ensures p.isHighVolatility <==> p.volatility > threshold
    ensures p.hasCongestion <==> h.timed.rec.congestion > 1.0
    ensures p.hasCongestion ==> p.congestionLevel != "None"
    ensures p.isCompleteHour <==> h.lmp.count == 4
    ensures p.congestionLevel == CongestionLevel(h.timed.rec.congestion)
    ensures p.lossPercentage == LossPercentage(h.timed.rec.loss, h.timed.rec.lmp)
    ensures p.completeness == Completeness(h.lmp.count) && p.completeness == h.lmp.count as real * 25.0
    ensures p.processingTimestamp == now
    ensures p.dataVersion == "1.0"
  {
    var volatility := h.lmp.std.GetOr(0.0);
    var completeness := Completeness(h.lmp.count);
    CompletenessProperties(h.lmp.count);
    Processed(h, volatility, volatility > threshold, h.timed.rec.congestion > 1.0,
      CongestionLevel(h.timed.rec.congestion), LossPercentage(h.timed.rec.loss, h.timed.rec.lmp),
      completeness, completeness == 100.0, now, "1.0")
  }

  function AddDerivedFields(hs: seq<Hourly>, threshold: real, now: string): (r: seq<Processed>)
    ensures |r| == |hs| && forall i :: 0 <= i < |hs| ==> r[i] == DeriveRow(hs[i], threshold, now)
  {
    if hs == [] then [] else [DeriveRow(hs[0], threshold, now)] + AddDerivedFields(hs[1..], threshold, now)
  }

  const HourlyStats: seq<string> := ["mean", "min", "max", "std", "count"]

  /** `f"{col}_{stat}_hourly"` for every averaged column and statistic. */
  function HourlyColumnNames(cols: seq<string>): (r: seq<string>)
    ensures |r| == 5 * |cols|
    ensures forall i :: 0 <= i < |cols| ==> cols[i] + "_mean_hourly" == r[5 * i]
  {
    if cols == [] then []
    else [cols[0] + "_mean_hourly", cols[0] + "_min_hourly", cols[0] + "_max_hourly",
          cols[0] + "_std_hourly", cols[0] + "_count_hourly"] + HourlyColumnNames(cols[1..])
  }

  /** The columns the processed frame has. */
  function ProcessedColumns(): seq<string> {
    ["timestamp", "location_id", "location_name"] + NumericColumns
    + ["date", "hour_of_day", "minute_of_hour", "day_of_week", "day_of_year", "week_of_year",
       "month", "quarter", "year", "hour", "is_weekend", "is_peak_hour", "is_business_hour",
       "season", "time_period"]
    + HourlyColumnNames(NumericColumns)
    + ["lmp_volatility_hourly", "is_high_volatility", "has_congestion", "congestion_level",
       "loss_percentage", "processing_timestamp", "data_version"]
  }

  /** `_validate_processed_data`: false only when an hourly mean column is
      missing; low completeness and few records per zone are only logged. */
  function ValidateProcessed(columns: seq<string>): (r: bool)
    ensures r <==> "lmp_total_mean_hourly" in columns && "energy_component_mean_hourly" in columns
  {
    var required := ["lmp_total_mean_hourly", "energy_component_mean_hourly"];
    var missing := seq(|required|, i requires 0 <= i < |required| => required[i] !in columns);
    !(missing[0] || missing[1])
  }

  /** The pipeline's own output always passes the output check. */
  lemma ProcessedColumnsValid()
    ensures ValidateProcessed(ProcessedColumns())
  {
    var hourly := HourlyColumnNames(NumericColumns);
    assert hourly[0] == "lmp_total_mean_hourly";
    assert hourly[5] == "energy_component_mean_hourly";
    var pre := ["timestamp", "location_id", "location_name"] + NumericColumns
      + ["date", "hour_of_day", "minute_of_hour", "day_of_week", "day_of_year", "week_of_year",
         "month", "quarter", "year", "hour", "is_weekend", "is_peak_hour", "is_business_hour",
         "season", "time_period"];
    var post := ["lmp_volatility_hourly", "is_high_volatility", "has_congestion", "congestion_level",
       "loss_percentage", "processing_timestamp", "data_version"];
    assert ProcessedColumns() == pre + hourly + post;
    assert ProcessedColumns()[|pre|] == "lmp_total_mean_hourly";
    assert ProcessedColumns()[|pre| + 5] == "energy_component_mean_hourly";
  }

  /** `process_raw_data`: an empty input or one that fails validation gives an
      empty frame; otherwise clean, add calendar fields, hourly statistics and
      derived fields. */
  function ProcessRawData(
    raw: seq<Row>, parseTime: Value -> Option<Instant>, std: seq<real> -> Option<real>,
    threshold: real, now: string): (r: Result<seq<Processed>>)
    ensures raw == [] || ValidateInput(raw) == Ok(false) ==> r == Ok([])
    ensures raw != [] && ValidateInput(raw).Err? ==> r.Err?
    ensures r.Ok? && r.value != [] ==> ValidateInput(raw) == Ok(true) && Clean(raw, parseTime).Ok?
    ensures raw != [] && ValidateInput(raw) == Ok(true) ==> (r.Ok? <==> Clean(raw, parseTime).Ok?)
    ensures r.Ok? ==> |r.value| <= |raw|
  {
    if raw == [] then Ok([])
    else
      var valid :- ValidateInput(raw);
      if !valid then Ok([])
      else
        var cleaned :- Clean(raw, parseTime);
        var out := AddDerivedFields(HourlyAverages(AddTimeFields(cleaned), std), threshold, now);
        ProcessedColumnsValid();
        if ValidateProcessed(ProcessedColumns()) then Ok(out) else Ok([])
  }

  /** The processed rows are the cleaned rows in the same order, one each, and
      each carries its own calendar flags and time period. */
  lemma ProcessRawDataRows(
    raw: seq<Row>, parseTime: Value -> Option<Instant>, std: seq<real> -> Option<real>,
    threshold: real, now: string)
    requires raw != [] && ValidateInput(raw) == Ok(true) && Clean(raw, parseTime).Ok?
    ensures var out := ProcessRawData(raw, parseTime, std, threshold, now);
      var cleaned := Clean(raw, parseTime).value;
      && out.Ok? && |out.value| == |cleaned|
      && (forall i :: 0 <= i < |cleaned| ==> out.value[i].hourly.timed == AddTimeFieldsTo(cleaned[i]))
      && NoDuplicates(KeysOf(cleaned, Key)) && SortedBy(cleaned, Order)
  {
    CleanIsDedupSort(raw, parseTime);
    DedupSortStrippedProperties(ParseTimes(raw, parseTime).value);
    ProcessedColumnsValid();
    var cleaned := Clean(raw, parseTime).value;
    assert ProcessRawData(raw, parseTime, std, threshold, now)
      == Ok(AddDerivedFields(HourlyAverages(AddTimeFields(cleaned), std), threshold, now));
    EnrichedRows(cleaned, std, threshold, now);
  }

  /** The enrichment steps keep one row per cleaned row, in order, each with
      its own calendar fields. */
  lemma EnrichedRows(cleaned: seq<Record>, std: seq<real> -> Option<real>, threshold: real, now: string)
    ensures var out := AddDerivedFields(HourlyAverages(AddTimeFields(cleaned), std), threshold, now);
      && |out| == |cleaned|
      && forall i :: 0 <= i < |cleaned| ==> out[i].hourly.timed == AddTimeFieldsTo(cleaned[i])
  {
  }

  /** Precomputed statistics of the price column for `detect_price_anomalies`. */
  datatype PriceStats = PriceStats(q1: real, q3: real, mean: real, std: real, median: real, mad: real)

  /** `|x - centre| / spread > threshold` on floats: with a zero spread the
      ratio is inf (flagged) or, for x at the centre, NaN (not flagged). */
  predicate ScoreAbove(x: real, centre: real, spread: real, scale: real, threshold: real)
    requires spread >= 0.0 && scale > 0.0
  {
    if spread == 0.0 then x != centre
    else Abs(scale * (x - centre) / spread) > threshold
  }

  function Abs(x: real): real {
    if x < 0.0 then -x else x
  }

  /** `detect_price_anomalies`: one flag per price for 'iqr', 'zscore' and
      'modified_zscore'; any other method is a ValueError. */
  function DetectPriceAnomalies(prices: seq<real>, detector: string, threshold: real, s: PriceStats): (r: Result<seq<bool>>)
    requires s.std >= 0.0 && s.mad >= 0.0
    ensures r.Ok? <==> detector in ["iqr", "zscore", "modified_zscore"]
    ensures r.Err? ==> r.error == "Unknown method: " + detector
    ensures r.Ok? ==> |r.value| == |prices|
    ensures detector == "iqr" ==> forall i :: 0 <= i < |prices| ==>
      (r.value[i] <==> !(s.q1 - threshold * (s.q3 - s.q1) <= prices[i] <= s.q3 + threshold * (s.q3 - s.q1)))
    ensures detector == "zscore" && s.std > 0.0 && threshold >= 0.0 ==> forall i :: 0 <= i < |prices| ==>
      (r.value[i] <==> Abs(prices[i] - s.mean) > threshold * s.std)
  {
    if detector == "iqr" then
      var iqr := s.q3 - s.q1;
      var lower := s.q1 - threshold * iqr;
      var upper := s.q3 + threshold * iqr;
      var r := seq(|prices|, i requires 0 <= i < |prices| => prices[i] < lower || prices[i] > upper);
      assert forall i :: 0 <= i < |prices| ==> (r[i] <==> !(lower <= prices[i] <= upper));
      Ok(r)
    else if detector == "zscore" then
      var r := seq(|prices|, i requires 0 <= i < |prices| => ScoreAbove(prices[i], s.mean, s.std, 1.0, threshold));
      forall i | 0 <= i < |prices| && s.std > 0.0 && threshold >= 0.0
        ensures r[i] <==> Abs(prices[i] - s.mean) > threshold * s.std
      {
        ZScoreScaled(prices[i] - s.mean, s.std, threshold);
      }
      Ok(r)
    else if detector == "modified_zscore" then
      Ok(seq(|prices|, i requires 0 <= i < |prices| => ScoreAbove(prices[i], s.median, s.mad, 0.6745, threshold)))
    else Err("Unknown method: " + detector)
  }

  /** Dividing by a positive spread: |d / spread| > t exactly when |d| > t * spread. */
  lemma ZScoreScaled(d: real, spread: real, t: real)
    requires spread > 0.0
    ensures Abs(1.0 * d / spread) > t <==> Abs(d) > t * spread
  {
    assert Abs(d / spread) * spread == Abs(d);
    if Abs(d / spread) > t {
      assert Abs(d / spread) * spread > t * spread;
    } else {
      assert Abs(d / spread) * spread <= t * spread;
    }
  }
}
