/** The data-ingestion lambda of `data_ingestion/lambda/fetch_data_lambda.py`:
    read the generation feed, clean the records, write them as one CSV object
    keyed by the time of the run, and answer with a status code. */
module IngestionLambda {
  import opened Base
  import opened Text
  import opened Json
  import opened Calendar
  import Tables
  import Feeds

  /** `extract_energy_data`: the decoded response, or the error of the
      request, walked by the generation loop that keeps `DateTime` and `kWh`. */
  method ExtractEnergyData(fetched: Result<Value>) returns (r: Result<seq<seq<Entry>>>)
    ensures r == Extraction(fetched)
  {
    if fetched.Err? {
      return Err(fetched.error);
    }
    r := Feeds.ParseRecords(Feeds.LambdaGeneration, fetched.value);
  }

  function Extraction(fetched: Result<Value>): Result<seq<seq<Entry>>> {
    match fetched
    case Err(e) => Err(e)
    case Ok(data) => Feeds.Records(Feeds.LambdaGeneration, data)
  }

  /** Every extracted record has exactly the columns `DateTime` and `kWh`. */
  lemma ExtractedRecordsHaveTwoColumns(fetched: Result<Value>, i: nat)
    requires Extraction(fetched).Ok? && i < |Extraction(fetched).value|
    ensures Keys(Extraction(fetched).value[i]) == ["DateTime", "kWh"]
  {
    var data := fetched.value;
    Feeds.RecordsComeFromEntries(Feeds.LambdaGeneration, data, i);
    var entry :| Feeds.RecordOf(Feeds.LambdaGeneration, entry) == Ok(Feeds.Records(Feeds.LambdaGeneration, data).value[i]);
    Feeds.RecordColumns(Feeds.LambdaGeneration, entry);
  }

  /** A record after `to_datetime` and `round(1)`; `when` is `None` for NaT,
      which is what a record without `BeginDate` (`DateTime` `''`) becomes. */
  datatype Row = Row(when: Option<Instant>, kWh: real)

  /** One second past the last instant a pandas timestamp (nanoseconds in a
      signed 64-bit integer) can hold. */
  const NaTRank: int := 9223372037

  /** The instants `to_datetime` can produce without raising. */
  predicate InTimestampRange(t: Instant) {
    -NaTRank <= t.seconds < NaTRank
  }

  /** The order of `sort_values('DateTime')`, which puts NaT last. */
  function ByDateTime(r: Row): Tables.SortKey {
    Tables.SortKey(if r.when.Some? then r.when.value.seconds else NaTRank, "")
  }

  /** `drop_duplicates()` compares whole rows. */
  function Whole(r: Row): Row {
    r
  }

  /** A frame built from records is empty when it has no rows or no columns. */
  predicate EmptyFrame(records: seq<seq<Entry>>) {
    forall i :: 0 <= i < |records| ==> records[i] == []
  }

  /** `transform_data`: `[]` for an empty frame; otherwise every record is
      converted (`convert` is pandas' `to_datetime` and `round(1)` of the two
      cells, failing where pandas raises), identical rows are dropped and the
      rest is sorted by `DateTime`. */
  function TransformData(records: seq<seq<Entry>>, convert: seq<Entry> -> Result<Row>): (r: Result<seq<Row>>)
    ensures records == [] ==> r == Ok([])
  {
    if EmptyFrame(records) then Ok([])
    else
      match MapAll(convert, records)
      case Err(e) => Err(e)
      case Ok(rows) => Ok(Tables.Sort(Tables.Dedup(rows, Whole), ByDateTime))
  }

  /** The output is sorted by `DateTime`, holds no row twice, holds each
      distinct converted row once, and is no longer than its input. */
  lemma TransformedRowsSortedAndDistinct(records: seq<seq<Entry>>, convert: seq<Entry> -> Result<Row>)
    requires TransformData(records, convert).Ok?
    ensures var r := TransformData(records, convert).value;
      && Tables.SortedBy(r, ByDateTime)
      && (forall i, j :: 0 <= i < j < |r| ==> r[i] != r[j])
      && |r| <= |records|
      && (!EmptyFrame(records) ==> forall i :: 0 <= i < |records| ==> convert(records[i]).Ok? && convert(records[i]).value in r)
      && (forall j :: 0 <= j < |r| ==> exists i :: 0 <= i < |records| && convert(records[i]) == Ok(r[j]))
  {
    if !EmptyFrame(records) {
      var rows := MapAll(convert, records).value;
      var r := TransformData(records, convert).value;
      MapAllEach(convert, records);
      Tables.DedupSortProperties(rows, Whole, ByDateTime);
      var keys := Tables.KeysOf(r, Whole);
      forall i, j | 0 <= i < j < |r| ensures r[i] != r[j] {
        assert keys[i] == r[i] && keys[j] == r[j];
      }
      forall i | 0 <= i < |records| ensures convert(records[i]).Ok? && convert(records[i]).value in r {
        assert rows[i] == convert(records[i]).value;
        var j :| 0 <= j < |r| && Whole(r[j]) == Whole(rows[i]);
      }
      forall j | 0 <= j < |r| ensures exists i :: 0 <= i < |records| && convert(records[i]) == Ok(r[j]) {
        assert r[j] in multiset(r);
        assert r[j] in rows;
        var i :| 0 <= i < |rows| && rows[i] == r[j];
        assert convert(records[i]) == Ok(rows[i]);
      }
    }
  }

  /** Rows whose `DateTime` is NaT come after every row with a timestamp, and
      are kept like any other row (two NaT rows are duplicates exactly when
      their `kWh` agree). */
  lemma NaTRowsSortLast(records: seq<seq<Entry>>, convert: seq<Entry> -> Result<Row>)
    requires TransformData(records, convert).Ok?
    requires forall i :: 0 <= i < |records| && convert(records[i]).Ok? && convert(records[i]).value.when.Some? ==>
               InTimestampRange(convert(records[i]).value.when.value)
    ensures var r := TransformData(records, convert).value;
      && (forall i, j :: 0 <= i < j < |r| && r[i].when.None? ==> r[j].when.None?)
      && (!EmptyFrame(records) ==>
            forall i :: 0 <= i < |records| && convert(records[i]).Ok? && convert(records[i]).value.when.None? ==>
              convert(records[i]).value in r)
  {
    var r := TransformData(records, convert).value;
    TransformedRowsSortedAndDistinct(records, convert);
    forall i, j | 0 <= i < j < |r| && r[i].when.None? ensures r[j].when.None? {
      assert Tables.KeyLe(ByDateTime(r[i]), ByDateTime(r[j]));
      var k :| 0 <= k < |records| && convert(records[k]) == Ok(r[j]);
    }
  }

  /** `f"energy-data/{now.strftime('%Y/%m/%d/%H%M%S')}/energy_data.csv"` */
  function StoreKey(now: Clock): (r: string)
    requires now.Valid()
    ensures |r| == 45
    ensures StartsWith(r, "energy-data/") && EndsWith(r, "/energy_data.csv")
    ensures r[12..29] == PathStamp(now)
  {
    var head := "energy-data/";
    var tail := "/energy_data.csv";
    var r := head + (PathStamp(now) + tail);
    assert r[..12] == head && r[12..29] == PathStamp(now) && r[29..] == tail;
    r
  }

  /** An object written to the bucket. */
  datatype Upload = Upload(bucket: string, key: string, rows: seq<Row>)

  /** The JSON body of the answer. */
  datatype Body =
    | Message(text: string)
    | Summary(message: string, recordsProcessed: nat, s3Key: string)

  datatype Answer = Answer(statusCode: int, body: Body, stored: Option<Upload>)

  /** What the handler sees of the outside world: `S3_BUCKET_NAME`, the API
      response, the clock and an exception from `put_object`. */
  datatype Environment = Environment(
    bucketVariable: Option<string>, fetched: Result<Value>, now: Clock, putError: Option<string>)

  /** `os.environ.get('S3_BUCKET_NAME', 's3-for-energy')` */
  function BucketName(env: Environment): string {
    env.bucketVariable.GetOr("s3-for-energy")
  }

  function Failure(e: string): Answer {
    Answer(500, Message("Error: " + e), None)
  }

  /** `lambda_handler`: 200 without storing when nothing was extracted; 500
      for any exception; otherwise 200 with the row count and the key. */
  function Handle(env: Environment, convert: seq<Entry> -> Result<Row>): (r: Answer)
    requires env.now.Valid()
    ensures r.statusCode == 200 || r.statusCode == 500
    ensures r.stored.Some? ==>
      && r.statusCode == 200
      && r.stored.value.key == StoreKey(env.now) && r.stored.value.bucket == BucketName(env)
      && r.body == Summary("Data pipeline executed successfully", |r.stored.value.rows|, r.stored.value.key)
    ensures r.stored.None? && r.statusCode == 200 ==> r.body == Message("No data to process")
  {
    match Extraction(env.fetched)
    case Err(e) => Failure(e)
    case Ok(records) =>
      if records == [] then Answer(200, Message("No data to process"), None)
      else
        match TransformData(records, convert)
        case Err(e) => Failure(e)
        case Ok(rows) =>
          if env.putError.Some? then Failure(env.putError.value)
          else
            var key := StoreKey(env.now);
            Answer(200, Summary("Data pipeline executed successfully", |rows|, key),
                   Some(Upload(BucketName(env), key, rows)))
  }

  method LambdaHandler(env: Environment, convert: seq<Entry> -> Result<Row>) returns (r: Answer)
    requires env.now.Valid()
    ensures r == Handle(env, convert)
  {
    var energy := ExtractEnergyData(env.fetched);
    if energy.Err? {
      return Failure(energy.error);
    }
    if energy.value == [] {
      return Answer(200, Message("No data to process"), None);
    }
    var transformed := TransformData(energy.value, convert);
    if transformed.Err? {
      return Failure(transformed.error);
    }
    if env.putError.Some? {
      return Failure(env.putError.value);
    }
    var key := StoreKey(env.now);
    r := Answer(200, Summary("Data pipeline executed successfully", |transformed.value|, key),
                Some(Upload(BucketName(env), key, transformed.value)));
  }

  /** The status is 200 exactly when nothing failed, and something is stored
      exactly when the status is 200 and there were records; a failure stores
      nothing and answers 500. */
  lemma StatusReflectsOutcome(env: Environment, convert: seq<Entry> -> Result<Row>)
    requires env.now.Valid()
    ensures var r := Handle(env, convert);
      && (r.statusCode == 200 || r.statusCode == 500)
      && (r.statusCode == 500 <==>
            || Extraction(env.fetched).Err?
            || (Extraction(env.fetched).value != []
                && (TransformData(Extraction(env.fetched).value, convert).Err? || env.putError.Some?)))
      && (r.stored.Some? <==> r.statusCode == 200 && Extraction(env.fetched).value != [])
      && (r.statusCode == 500 ==> r.body.Message? && StartsWith(r.body.text, "Error: "))
  {
  }

  /** A response without generation groups stores nothing. */
  lemma NoGroupsNoUpload(env: Environment, convert: seq<Entry> -> Result<Row>, data: seq<Entry>)
    requires env.now.Valid() && env.fetched == Ok(VDict(data)) && "GenMixes" !in Keys(data)
    ensures Handle(env, convert) == Answer(200, Message("No data to process"), None)
  {
    Feeds.MissingOuterKeyGivesNothing(Feeds.LambdaGeneration, data);
  }

  /** Whatever is stored is sorted, free of repeats, and keyed under
      `energy-data/` in the default bucket unless one is configured. */
  lemma StoredObject(env: Environment, convert: seq<Entry> -> Result<Row>)
    requires env.now.Valid() && Handle(env, convert).stored.Some?
    ensures var u := Handle(env, convert).stored.value;
      && Tables.SortedBy(u.rows, ByDateTime)
      && (forall i, j :: 0 <= i < j < |u.rows| ==> u.rows[i] != u.rows[j])
      && StartsWith(u.key, "energy-data/")
      && (env.bucketVariable.None? ==> u.bucket == "s3-for-energy")
  {
    TransformedRowsSortedAndDistinct(Extraction(env.fetched).value, convert);
  }
}
