/** The ISO-NE API client of `backend/app/allinone.py`: its two readers walk a
    decoded response with the `Feeds` loops. */
module IsoNeClient {
  import opened Base
  import opened Json
  import Feeds

  /** `_parse_generation_data`: one record per `GenMixs` entry of every
      `GenMixes` group, in order. */
  method ParseGenerationData(data: Value) returns (r: Result<seq<seq<Entry>>>)
    ensures r == Feeds.Records(Feeds.GenerationMix, data)
  {
    r := Feeds.ParseRecords(Feeds.GenerationMix, data);
  }

  /** `_parse_load_data`: one record per `HourlyLoadForecast` entry of every
      `HourlyLoadForecasts` group, in order. */
  method ParseLoadData(data: Value) returns (r: Result<seq<seq<Entry>>>)
    ensures r == Feeds.Records(Feeds.LoadForecast, data)
  {
    r := Feeds.ParseRecords(Feeds.LoadForecast, data);
  }

  /** A generation record names its fuel and the `generation_mix` source; a
      load record is labelled `Load_Forecast` from `load_forecast`. */
  lemma ReadersLabelTheirRecords(data: Value, feed: Feeds.Feed, i: nat)
    requires feed != Feeds.LambdaGeneration
    requires Feeds.Records(feed, data).Ok? && i < |Feeds.Records(feed, data).value|
    ensures |Feeds.Records(feed, data).value[i]| == 4
    ensures Feeds.Records(feed, data).value[i][3].key == "Source"
    ensures Feeds.Records(feed, data).value[i][3].val == VStr(if feed == Feeds.GenerationMix then "generation_mix" else "load_forecast")
  {
    Feeds.RecordsComeFromEntries(feed, data, i);
  }
}

/** The record cleaner of `backend/app/allinone.py`: parse the timestamps, keep
    the numeric readings, drop repeated `(DateTime, kWh)` pairs, add the
    calendar columns, and count what was processed and what failed. */
module EnergyData {
  import opened Base
  import opened Json
  import opened Calendar
  import Tables

  /** What pandas decides about single cells: `to_datetime(errors='coerce')`,
      `to_numeric(errors='coerce')` and `round(1)`. */
  datatype Coercions = Coercions(
    toDatetime: Value -> Option<Instant>,
    toNumeric: Value -> Option<real>,
    round: real -> real)

  /** A row whose `DateTime` parsed. */
  datatype Dated = Dated(when: Instant, row: seq<Entry>)

  /** A row whose `DateTime` parsed and whose `kWh` is numeric, rounded. */
  datatype Reading = Reading(when: Instant, kWh: real, row: seq<Entry>)

  datatype TimePeriod = Day | Evening | Night

  /** A reading with the columns `_add_derived_fields` adds. */
  datatype Processed = Processed(
    reading: Reading, date: string, hour: nat, dayOfWeek: nat, month: nat, year: int,
    timePeriod: TimePeriod, isWeekend: bool, processedAt: Clock)

  /** `to_datetime` of the row's `DateTime` cell; a row without the cell holds
      `NaN` there and is dropped. */
  function ParseDateTime(c: Coercions, row: seq<Entry>): (r: Option<Dated>)
    ensures r.Some? <==> "DateTime" in Keys(row) && c.toDatetime(Lookup(row, "DateTime").value).Some?
    ensures r.Some? ==> r.value.row == row && r.value.when == c.toDatetime(Lookup(row, "DateTime").value).value
  {
    match Lookup(row, "DateTime")
    case None => None
    case Some(cell) =>
      match c.toDatetime(cell)
      case None => None
      case Some(when) => Some(Dated(when, row))
  }

  function DateTimeParser(c: Coercions): seq<Entry> -> Option<Dated> {
    row => ParseDateTime(c, row)
  }

  /** `_clean_datetime`: the rows whose `DateTime` parses, in order. */
  function CleanDateTime(c: Coercions, rows: seq<seq<Entry>>): seq<Dated> {
    FilterMap(DateTimeParser(c), rows)
  }

  /** `to_numeric` and `round(1)` of the row's `kWh` cell. */
  function ParseKwh(c: Coercions, d: Dated): (r: Option<Reading>)
    ensures r.Some? <==> "kWh" in Keys(d.row) && c.toNumeric(Lookup(d.row, "kWh").value).Some?
    ensures r.Some? ==> r.value.when == d.when && r.value.row == d.row
    ensures r.Some? ==> r.value.kWh == c.round(c.toNumeric(Lookup(d.row, "kWh").value).value)
  {
    match Lookup(d.row, "kWh")
    case None => None
    case Some(cell) =>
      match c.toNumeric(cell)
      case None => None
      case Some(x) => Some(Reading(d.when, c.round(x), d.row))
  }

  function KwhParser(c: Coercions): Dated -> Option<Reading> {
    d => ParseKwh(c, d)
  }

  /** `_round_kwh`: the rows whose `kWh` is numeric, rounded, in order. */
  function RoundKwh(c: Coercions, rows: seq<Dated>): seq<Reading> {
    FilterMap(KwhParser(c), rows)
  }

  /** The subset `_remove_duplicates` compares. */
  function DuplicateKey(r: Reading): (Instant, real) {
    (r.when, r.kWh)
  }

  /** `drop_duplicates(subset=['DateTime', 'kWh'])`, keeping the first. */
  function RemoveDuplicates(rows: seq<Reading>): (r: seq<Reading>)
    ensures |r| <= |rows| && multiset(r) <= multiset(rows)
    ensures Tables.NoDuplicates(Tables.KeysOf(r, DuplicateKey))
  {
    Tables.DedupProperties(rows, DuplicateKey);
    Tables.Dedup(rows, DuplicateKey)
  }

  /** `_classify_time_period` */
  function ClassifyTimePeriod(hour: int): (r: TimePeriod)
    ensures r == Day <==> 6 <= hour < 18
    ensures r == Evening <==> 18 <= hour < 22
    ensures r == Night <==> hour < 6 || 22 <= hour
  {
    if 6 <= hour < 18 then Day
    else if 18 <= hour < 22 then Evening
    else Night
  }

  /** The columns `_add_derived_fields` adds to one reading. */
  function Derive(r: Reading, now: Clock): (p: Processed)
    ensures p.reading == r && p.processedAt == now
    ensures p.isWeekend <==> r.when.dayOfWeek in {5, 6}
    ensures p.hour == r.when.hour && p.timePeriod == ClassifyTimePeriod(r.when.hour)
    ensures p.date == r.when.date && p.dayOfWeek == r.when.dayOfWeek
    ensures p.month == r.when.month && p.year == r.when.year
  {
    Processed(r, r.when.date, r.when.hour, r.when.dayOfWeek, r.when.month, r.when.year,
              ClassifyTimePeriod(r.when.hour), r.when.dayOfWeek in {5, 6}, now)
  }

  function AddDerivedFields(rows: seq<Reading>, now: Clock): (r: seq<Processed>)
    ensures |r| == |rows|
    ensures forall i :: 0 <= i < |rows| ==> r[i] == Derive(rows[i], now)
  {
    seq(|rows|, i requires 0 <= i < |rows| => Derive(rows[i], now))
  }

  /** Some raw record has the column, so the frame has it. */
  predicate HasColumn(raw: seq<seq<Entry>>, name: string) {
    exists i :: 0 <= i < |raw| && name in Keys(raw[i])
  }

  /** The steps up to `_add_derived_fields`; a column no record has raises
      `KeyError` when it is first read. */
  function Transform(c: Coercions, raw: seq<seq<Entry>>, now: Clock): (r: Result<seq<Processed>>)
    ensures r.Err? <==> !HasColumn(raw, "DateTime") || !HasColumn(raw, "kWh")
    ensures !HasColumn(raw, "DateTime") ==> r == Err("'DateTime'")
    ensures HasColumn(raw, "DateTime") && !HasColumn(raw, "kWh") ==> r == Err("'kWh'")
    ensures r.Ok? ==> forall i :: 0 <= i < |r.value| ==> r.value[i].processedAt == now
  {
    if !HasColumn(raw, "DateTime") then Err("'DateTime'")
    else if !HasColumn(raw, "kWh") then Err("'kWh'")
    else Ok(AddDerivedFields(RemoveDuplicates(RoundKwh(c, CleanDateTime(c, raw))), now))
  }

  /** What `process_energy_data` returns for a non-empty input; `finish` stands
      for `_validate_data` followed by `_sort_data`. */
  function Outcome(c: Coercions, raw: seq<seq<Entry>>, now: Clock, finish: seq<Processed> -> Result<seq<Processed>>)
    : Result<seq<Processed>>
  {
    match Transform(c, raw, now)
    case Err(e) => Err(e)
    case Ok(rows) => finish(rows)
  }

  /** The readings that survive both conversions are exactly those of the raw
      records whose `DateTime` parses and whose `kWh` is numeric: the two steps
      only drop rows. */
  lemma CleaningOnlyDrops(c: Coercions, raw: seq<seq<Entry>>)
    ensures |RoundKwh(c, CleanDateTime(c, raw))| <= |raw|
    ensures forall r :: r in RoundKwh(c, CleanDateTime(c, raw)) <==>
      exists i :: 0 <= i < |raw| && ParseDateTime(c, raw[i]).Some? && ParseKwh(c, ParseDateTime(c, raw[i]).value) == Some(r)
  {
    FilterMapTwice(DateTimeParser(c), KwhParser(c), raw);
  }

  /** After `_remove_duplicates` no two readings share a `(DateTime, kWh)`
      pair, each kept reading is the first of its pair, every pair survives,
      and nothing is added. */
  lemma DuplicatesRemoved(rows: seq<Reading>)
    ensures var r := RemoveDuplicates(rows);
      && |r| <= |rows| && multiset(r) <= multiset(rows)
      && (forall i, j :: 0 <= i < j < |r| ==> DuplicateKey(r[i]) != DuplicateKey(r[j]))
      && (forall i :: 0 <= i < |r| ==> Tables.FirstWithKey(rows, DuplicateKey, DuplicateKey(r[i])) == Some(r[i]))
      && (forall i :: 0 <= i < |rows| ==> exists j :: 0 <= j < |r| && DuplicateKey(r[j]) == DuplicateKey(rows[i]))
  {
    var r := RemoveDuplicates(rows);
    Tables.DedupProperties(rows, DuplicateKey);
    var keys := Tables.KeysOf(r, DuplicateKey);
    forall i, j | 0 <= i < j < |r| ensures DuplicateKey(r[i]) != DuplicateKey(r[j]) {
      assert keys[i] == DuplicateKey(r[i]) && keys[j] == DuplicateKey(r[j]);
    }
    forall i | 0 <= i < |rows| ensures exists j :: 0 <= j < |r| && DuplicateKey(r[j]) == DuplicateKey(rows[i]) {
      var j :| 0 <= j < |keys| && keys[j] == DuplicateKey(rows[i]);
    }
  }

  /** A transformed input has no more rows than the raw records, one per
      distinct `(DateTime, kWh)` pair among the readings. */
  lemma TransformShrinks(c: Coercions, raw: seq<seq<Entry>>, now: Clock)
    requires Transform(c, raw, now).Ok?
    ensures |Transform(c, raw, now).value| <= |raw|
    ensures forall i, j :: 0 <= i < j < |Transform(c, raw, now).value| ==>
      DuplicateKey(Transform(c, raw, now).value[i].reading) != DuplicateKey(Transform(c, raw, now).value[j].reading)
    ensures forall i :: 0 <= i < |Transform(c, raw, now).value| ==>
      exists j :: 0 <= j < |raw| && ParseDateTime(c, raw[j]).Some?
        && ParseKwh(c, ParseDateTime(c, raw[j]).value) == Some(Transform(c, raw, now).value[i].reading)
  {
    var readings := RoundKwh(c, CleanDateTime(c, raw));
    var out := Transform(c, raw, now).value;
    CleaningOnlyDrops(c, raw);
    DuplicatesRemoved(readings);
    forall i | 0 <= i < |out|
      ensures exists j :: 0 <= j < |raw| && ParseDateTime(c, raw[j]).Some? && ParseKwh(c, ParseDateTime(c, raw[j]).value) == Some(out[i].reading)
    {
      var kept := RemoveDuplicates(readings);
      assert out[i].reading == kept[i];
      assert kept[i] in multiset(kept);
      assert kept[i] in readings;
    }
  }

  /** A frame whose records all lack `DateTime` fails before anything else. */
  lemma MissingDateTimeColumn(c: Coercions, raw: seq<seq<Entry>>, now: Clock, finish: seq<Processed> -> Result<seq<Processed>>)
    requires forall i :: 0 <= i < |raw| ==> "DateTime" !in Keys(raw[i])
    ensures Outcome(c, raw, now, finish) == Err("'DateTime'")
  {
  }

  /** The final step with the class completed as the file leaves it: the
      file ends inside `_validate_data` and never defines `_sort_data`, so
      every input that gets past `_add_derived_fields` raises
      `AttributeError`. (The file as it stands does not even parse.) */
  function AsWrittenFinish(rows: seq<Processed>): (r: Result<seq<Processed>>)
    ensures r.Err?
  {
    Err("'EnergyDataProcessor' object has no attribute '_sort_data'")
  }

  lemma AsWrittenEveryInputFails(c: Coercions, raw: seq<seq<Entry>>, now: Clock)
    ensures Outcome(c, raw, now, AsWrittenFinish).Err?
  {
  }

  /** `EnergyDataProcessor`: the two counters it keeps across calls. */
  class EnergyDataProcessor {
    var processedCount: int
    var errorCount: int

    constructor ()
      ensures processedCount == 0 && errorCount == 0
    {
      processedCount := 0;
      errorCount := 0;
    }

    /** `process_energy_data`: an empty input gives `[]` and touches no
        counter; otherwise the outcome of the steps, with `processed_count` set
        to the number of rows on success and `error_count` raised by one on
        failure. */
    method ProcessEnergyData(c: Coercions, raw: seq<seq<Entry>>, now: Clock,
                             finish: seq<Processed> -> Result<seq<Processed>>)
      returns (r: Result<seq<Processed>>)
      modifies this
      ensures raw == [] ==> r == Ok([]) && processedCount == old(processedCount) && errorCount == old(errorCount)
      ensures raw != [] ==> r == Outcome(c, raw, now, finish)
      ensures raw != [] && r.Ok? ==> processedCount == |r.value| && errorCount == old(errorCount)
      ensures r.Err? ==> processedCount == old(processedCount) && errorCount == old(errorCount) + 1
    {
      if raw == [] {
        return Ok([]);
      }
      r := Outcome(c, raw, now, finish);
      if r.Err? {
        errorCount := errorCount + 1;
        return;
      }
      processedCount := |r.value|;
    }
  }
}
