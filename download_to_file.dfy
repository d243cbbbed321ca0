/** The older collector in `backend/app/download_to_file.py`. Its URL
    substitution, header redaction and flattening are the same code as the
    newer collector's and are the `Collector` members; what differs is the
    decoding of a non-JSON body, the CSV-only save and the shape of the results. */
module LegacyCollector {
  import opened Base
  import opened Text
  import opened Json
  import opened Calendar
  import Collector

  /** What the HTTP layer hands back: the body parsed as JSON, or `None` when
      `response.json()` raises `JSONDecodeError`, and the body as text. */
  datatype Reply = Reply(json: Option<Value>, text: string)

  /** The value `make_api_call` returns: a non-JSON body is wrapped as
      `{'raw_response': text}`. */
  function ResponseData(reply: Reply): (r: Value)
    ensures reply.json.Some? ==> r == reply.json.value
    ensures reply.json.None? ==> r == VDict([Entry("raw_response", VStr(reply.text))])
  {
    match reply.json
    case Some(v) => v
    case None => VDict([Entry("raw_response", VStr(reply.text))])
  }

  /** A non-JSON body is saved as one row whose `raw_response` column holds the
      text; the newer collector, which keeps the text as it is, puts it in a
      `value` column instead. */
  lemma TextBodyIsOneRawResponseRow(text: string)
    ensures Collector.FrameRecords(ResponseData(Reply(None, text))) == [VDict([Entry("raw_response", VStr(text))])]
    ensures Collector.FrameRecords(VStr(text)) == [VDict([Entry("value", VStr(text))])]
  {
    var entries := [Entry("raw_response", VStr(text))];
    assert !Collector.HasNested(entries) by {
      forall i | 0 <= i < |entries| ensures !entries[i].val.IsContainer() {
        assert entries[i] == entries[0];
      }
    }
  }

  /** `api_config.get('csv_prefix', 'data')` */
  function CsvPrefix(config: seq<Entry>): (r: Value)
    ensures "csv_prefix" in Keys(config) ==> Some(r) == Lookup(config, "csv_prefix")
    ensures "csv_prefix" !in Keys(config) ==> r == VStr("data")
  {
    GetOrLookup(config, "csv_prefix", VStr("data"));
    Lookup(config, "csv_prefix").GetOr(VStr("data"))
  }

  /** `f"{csv_prefix}_{timestamp}_{unique_id}.csv"` */
  function CsvFileName(config: seq<Entry>, now: Clock, uuid: string): (r: string)
    requires now.Valid()
    ensures StartsWith(r, Str(CsvPrefix(config)) + "_")
    ensures |uuid| >= 8 ==> |r| == |Str(CsvPrefix(config))| + 1 + 15 + 1 + 8 + 4
    ensures EndsWith(r, ".csv") && |r| >= |Str(CsvPrefix(config))| + 1 + 15 + 1 + 4
    ensures var p := |Str(CsvPrefix(config))|;
      && ParseCompactStamp(r[p + 1..p + 16]) == Some(now.(microsecond := 0))
      && r[p + 16] == '_'
      && (|uuid| >= 8 ==> r[p + 17..p + 25] == uuid[..8])
  {
    var prefix := Str(CsvPrefix(config));
    Collector.StampedNameParts(prefix, now, Take(uuid, 8), ".csv");
    prefix + "_" + CompactStamp(now) + "_" + Take(uuid, 8) + ".csv"
  }

  /** Without a `file_prefix` the newer collector names a CSV file exactly as
      this one does. */
  lemma FileNamesAgreeWithoutFilePrefix(config: seq<Entry>, now: Clock, uuid: string)
    requires now.Valid()
    requires "file_prefix" !in Keys(config)
    ensures CsvFileName(config, now, uuid) == Collector.FileName(config, now, uuid, Collector.FileType.CSV)
  {
    assert Lookup(config, "file_prefix").None?;
    assert Collector.FilePrefix(config) == CsvPrefix(config);
    assert "." + Collector.FileType.CSV.Label() == ".csv";
  }

  /** A written CSV file: its path and its rows. */
  datatype CsvFile = CsvFile(path: string, rows: seq<seq<Entry>>)

  /** What `save_to_csv` sees of the outside world: the clock for the file
      name, the text of the `timestamp` column, the uuid and an exception
      raised while writing. */
  datatype CsvEnv = CsvEnv(now: Clock, stampText: string, uuid: string, writeError: Option<string>)

  /** `save_to_csv`: a missing `output_folder` or `name` raises `KeyError` and
      a folder that is not a string raises `TypeError`; otherwise the rows are
      shaped by the collector's rule, carry the three metadata columns and are
      written under the output folder. */
  function SaveToCsv(data: Value, config: seq<Entry>, baseDir: string, env: CsvEnv): (r: Result<CsvFile>)
    requires env.now.Valid()
    ensures r.Ok? <==>
      && "output_folder" in Keys(config) && Lookup(config, "output_folder").value.VStr?
      && "name" in Keys(config) && env.writeError.None?
    ensures "output_folder" !in Keys(config) ==> r == Err("'output_folder'")
    ensures r.Ok? ==>
      && StartsWith(r.value.path, Collector.OutputFolder(baseDir, Lookup(config, "output_folder").value).value + "/")
      && EndsWith(r.value.path, "/" + CsvFileName(config, env.now, env.uuid))
      && r.value.rows == Collector.ShapedRows(data, Lookup(config, "name").value, env.stampText, Take(env.uuid, 8))
  {
    match Lookup(config, "output_folder")
    case None => Err("'output_folder'")
    case Some(folder) =>
      match Collector.OutputFolder(baseDir, folder)
      case Err(e) => Err(e)
      case Ok(dir) =>
      var name := CsvFileName(config, env.now, env.uuid);
      var path := dir + ("/" + name);
      assert path[|dir|..] == "/" + name && path[..|dir| + 1] == dir + "/";
      match Lookup(config, "name")
      case None => Err("'name'")
      case Some(apiName) =>
        if env.writeError.Some? then Err(env.writeError.value)
        else Ok(CsvFile(path, Collector.ShapedRows(data, apiName, env.stampText, Take(env.uuid, 8))))
  }

  /** Every saved row names its API, whatever the shape of the data. */
  lemma SavedRowsNameTheApi(data: Value, config: seq<Entry>, baseDir: string, env: CsvEnv, i: nat)
    requires env.now.Valid()
    requires SaveToCsv(data, config, baseDir, env).Ok?
    requires i < |SaveToCsv(data, config, baseDir, env).value.rows|
    ensures Some(Lookup(SaveToCsv(data, config, baseDir, env).value.rows[i], "api_name").value) == Lookup(config, "name")
    ensures Lookup(SaveToCsv(data, config, baseDir, env).value.rows[i], "unique_id") == Some(VStr(Take(env.uuid, 8)))
  {
    Collector.ShapedRowsCarryMetadata(data, Lookup(config, "name").value, env.stampText, Take(env.uuid, 8), i, "api_name");
  }

  /** One entry of the result list. */
  datatype ApiResult =
    | Succeeded(apiName: Value, csvPath: string)
    | Failed(apiName: Value, error: string)

  /** The `try` body for one API: call, save, and turn any exception into a
      `failed` entry. */
  function RunOne(config: seq<Entry>, call: seq<Entry> -> Result<Reply>, baseDir: string, env: CsvEnv): (r: ApiResult)
    requires env.now.Valid()
    ensures r.apiName == Collector.ApiName(config)
    ensures r.Succeeded? <==> call(config).Ok? && SaveToCsv(ResponseData(call(config).value), config, baseDir, env).Ok?
    ensures r.Succeeded? ==> r.csvPath == SaveToCsv(ResponseData(call(config).value), config, baseDir, env).value.path
  {
    match call(config)
    case Err(e) => Failed(Collector.ApiName(config), e)
    case Ok(reply) =>
      match SaveToCsv(ResponseData(reply), config, baseDir, env)
      case Err(e) => Failed(Collector.ApiName(config), e)
      case Ok(file) => Succeeded(Collector.ApiName(config), file.path)
  }

  /** `run_all_apis`: one result per configured API, in order. */
  method RunAllApis(apis: seq<seq<Entry>>, call: seq<Entry> -> Result<Reply>, baseDir: string, env: nat -> CsvEnv)
    returns (results: seq<ApiResult>)
    requires forall i: nat :: env(i).now.Valid()
    ensures |results| == |apis|
    ensures forall i :: 0 <= i < |apis| ==> results[i] == RunOne(apis[i], call, baseDir, env(i))
  {
    results := [];
    for i := 0 to |apis|
      invariant |results| == i
      invariant forall j :: 0 <= j < i ==> results[j] == RunOne(apis[j], call, baseDir, env(j))
    {
      results := results + [RunOne(apis[i], call, baseDir, env(i))];
    }
  }

  /** A configuration without `output_folder` fails with the `KeyError` text
      even when the call succeeds, and the loop goes on. */
  lemma MissingFolderFails(config: seq<Entry>, call: seq<Entry> -> Result<Reply>, baseDir: string, env: CsvEnv)
    requires env.now.Valid()
    requires call(config).Ok? && "output_folder" !in Keys(config)
    ensures RunOne(config, call, baseDir, env) == Failed(Collector.ApiName(config), "'output_folder'")
  {
  }

  /** `run_single_api`: the first configuration with the name, or `ValueError`. */
  method RunSingleApi(apis: seq<seq<Entry>>, name: string, call: seq<Entry> -> Result<Reply>, baseDir: string, env: CsvEnv)
    returns (r: Result<ApiResult>)
    requires env.now.Valid()
    ensures r.Err? <==> forall i :: 0 <= i < |apis| ==> !Collector.Named(apis[i], name)
    ensures r.Err? ==> r.error == "API configuration not found for: " + name
    ensures r.Ok? ==>
      exists i :: && 0 <= i < |apis|
                  && Collector.Named(apis[i], name)
                  && (forall j :: 0 <= j < i ==> !Collector.Named(apis[j], name))
                  && r.value == RunOne(apis[i], call, baseDir, env)
    ensures r.Ok? ==> r.value.apiName == VStr(name)
  {
    var found := Collector.FindApiConfig(apis, name);
    if found.None? {
      return Err("API configuration not found for: " + name);
    }
    r := Ok(RunOne(apis[found.value], call, baseDir, env));
  }
}
