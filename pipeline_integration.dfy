/** `EnergyDataPipelineIntegration` of
    `app/integration/energy_pipeline_integration.py`: runs the collector,
    hands every collected result to the storage layer, and keeps run
    statistics in counters that are reset at the start of a full run. */
module PipelineIntegration {
  import opened Base
  import opened Text
  import opened Json
  import Persistence

  /** `'success'`, `'failed'` and `'skipped'` in the status fields. */
  datatype Stage = Success | Failure | Skipped

  /** One entry of the pipeline's results. `saved` holds the storage layer's
      answer when the upload went through. */
  datatype PipelineResult = PipelineResult(
    apiName: Value, collection: Stage, upload: Stage, error: Option<Value>, saved: Option<Persistence.SaveResult>)

  /** `persistence.process_collector_data(collector_result, api_config)`, or
      the exception it raises. */
  type Uploader = (seq<Entry>, seq<Entry>) -> Result<Persistence.SaveResult>

  /** `collector_result.get('status') == 'success'` */
  predicate Collected(result: seq<Entry>) {
    Lookup(result, "status") == Some(VStr("success"))
  }

  /** `collector_result.get('api_name', 'unknown')` */
  function ResultApiName(result: seq<Entry>): Value {
    Lookup(result, "api_name").GetOr(VStr("unknown"))
  }

  /** `api_config.get('name') == api_name` */
  predicate NameIs(config: seq<Entry>, name: Value) {
    Lookup(config, "name").GetOr(VNull) == name
  }

  /** The first configuration whose name is `name`. */
  function FirstNamed(apis: seq<seq<Entry>>, name: Value): Option<seq<Entry>> {
    if apis == [] then None
    else if NameIs(apis[0], name) then Some(apis[0])
    else FirstNamed(apis[1..], name)
  }

  /** `FirstNamed` finds nothing exactly when no configuration has the name,
      and otherwise the one at the first position that has it. */
  lemma {:induction false} FirstNamedIsFirst(apis: seq<seq<Entry>>, name: Value)
    ensures FirstNamed(apis, name).None? <==> forall i :: 0 <= i < |apis| ==> !NameIs(apis[i], name)
    ensures FirstNamed(apis, name).Some? ==>
      exists i :: && 0 <= i < |apis| && FirstNamed(apis, name).value == apis[i] && NameIs(apis[i], name)
                  && forall j :: 0 <= j < i ==> !NameIs(apis[j], name)
  {
    if apis != [] && !NameIs(apis[0], name) {
      var rest := apis[1..];
      FirstNamedIsFirst(rest, name);
      assert forall j :: 1 <= j < |apis| ==> apis[j] == rest[j - 1];
      if FirstNamed(rest, name).Some? {
        var k :| && 0 <= k < |rest| && FirstNamed(rest, name).value == rest[k] && NameIs(rest[k], name)
                 && forall j :: 0 <= j < k ==> !NameIs(rest[j], name);
        assert forall j :: 1 <= j < k + 1 ==> !NameIs(apis[j], name);
        assert apis[k + 1] == rest[k];
      }
    }
  }

  /** `_find_api_config`: the loop that returns the first match. */
  method FindApiConfig(apis: seq<seq<Entry>>, name: Value) returns (found: Option<seq<Entry>>)
    ensures found == FirstNamed(apis, name)
  {
    for i := 0 to |apis|
      invariant FirstNamed(apis, name) == FirstNamed(apis[i..], name)
    {
      assert apis[i..][1..] == apis[i + 1..];
      if NameIs(apis[i], name) {
        return Some(apis[i]);
      }
    }
    assert apis[|apis|..] == [];
    found := None;
  }

  /** The configuration made up for a collected API that has none: its name,
      the lower-cased name with `_` for spaces as folder, and prefix `data`;
      a name that is not a string has no `lower` and raises. */
  function FallbackConfig(apiName: Value): (r: Result<seq<Entry>>)
    ensures r.Ok? <==> apiName.VStr?
  {
    if apiName.VStr? then
      Ok([Entry("name", apiName), Entry("output_folder", VStr(Replace(Lower(apiName.s), " ", "_"))),
          Entry("csv_prefix", VStr("data"))])
    else Err("'" + apiName.TypeName() + "' object has no attribute 'lower'")
  }

  /** The made-up configuration names the API, derives the folder from the
      name and uses the prefix `data`. */
  lemma FallbackConfigFields(apiName: Value)
    requires apiName.VStr?
    ensures var config := FallbackConfig(apiName).value;
      && Lookup(config, "name") == Some(apiName)
      && Lookup(config, "output_folder") == Some(VStr(Replace(Lower(apiName.s), " ", "_")))
      && Lookup(config, "csv_prefix") == Some(VStr("data"))
  {
    var config := FallbackConfig(apiName).value;
    LookupThree(config, "name");
    LookupThree(config, "output_folder");
    LookupThree(config, "csv_prefix");
  }

  /** The fallback folder holds no space and no upper-case letter. */
  lemma FallbackFolderIsPlain(name: string)
    ensures var folder := Replace(Lower(name), " ", "_");
      && |folder| == |name|
      && forall i :: 0 <= i < |folder| ==> folder[i] != ' ' && !('A' <= folder[i] <= 'Z')
  {
    ReplaceChar(Lower(name), ' ', '_');
  }

  /** The configuration `_process_single_result` uploads with: the matching
      one, or the fallback when there is none (or it is empty). */
  function ConfigFor(apis: seq<seq<Entry>>, apiName: Value): Result<seq<Entry>> {
    match FirstNamed(apis, apiName)
    case Some(config) => if config == [] then FallbackConfig(apiName) else Ok(config)
    case None => FallbackConfig(apiName)
  }

  /** The entry for a result whose collection failed: its error, or
      `Collection failed` without one. */
  function SkippedResult(result: seq<Entry>): PipelineResult {
    PipelineResult(ResultApiName(result), Failure, Skipped, Some(Lookup(result, "error").GetOr(VStr("Collection failed"))), None)
  }

  /** `_process_single_result`, as a value: a failed collection is skipped;
      otherwise the upload's success or failure, any exception included. */
  function SingleOutcome(apis: seq<seq<Entry>>, result: seq<Entry>, upload: Uploader): PipelineResult {
    var name := ResultApiName(result);
    if !Collected(result) then SkippedResult(result)
    else
      match ConfigFor(apis, name)
      case Err(e) => PipelineResult(name, Success, Failure, Some(VStr(e)), None)
      case Ok(config) =>
        match upload(result, config)
        case Err(e) => PipelineResult(name, Success, Failure, Some(VStr(e)), None)
        case Ok(saved) =>
          if saved.Saved? then PipelineResult(name, Success, Success, None, Some(saved))
          else PipelineResult(name, Success, Failure, Some(VStr(saved.error)), None)
  }

  /** A failed collection is skipped and nothing else is; the upload succeeds
      exactly when a configuration was found or made up and the storage layer
      answered with a saved object, which the entry then carries. */
  lemma OutcomeStages(apis: seq<seq<Entry>>, result: seq<Entry>, upload: Uploader)
    ensures var r := SingleOutcome(apis, result, upload);
      && r.apiName == ResultApiName(result)
      && (r.upload == Skipped <==> !Collected(result))
      && r.collection == (if Collected(result) then Success else Failure)
      && (r.upload == Success <==> r.saved.Some?)
      && (r.upload == Success <==>
            && Collected(result)
            && ConfigFor(apis, r.apiName).Ok?
            && upload(result, ConfigFor(apis, r.apiName).value).Ok?
            && upload(result, ConfigFor(apis, r.apiName).value).value.Saved?)
  {
  }

  /** The entry `_process_single_result` returns: a failed collection is
      skipped; otherwise look up the configuration (or make one up), upload,
      and turn a failed upload or any exception into a failed upload status. */
  method ResultEntry(apis: seq<seq<Entry>>, result: seq<Entry>, upload: Uploader) returns (r: PipelineResult)
    ensures r == SingleOutcome(apis, result, upload)
  {
    if !Collected(result) {
      return SkippedResult(result);
    }
    var name := ResultApiName(result);
    var found := FindApiConfig(apis, name);
    var config: seq<Entry>;
    if found.None? || found.value == [] {
      var fallback := FallbackConfig(name);
      if fallback.Err? {
        return PipelineResult(name, Success, Failure, Some(VStr(fallback.error)), None);
      }
      config := fallback.value;
    } else {
      config := found.value;
    }
    var reply := upload(result, config);
    if reply.Err? {
      return PipelineResult(name, Success, Failure, Some(VStr(reply.error)), None);
    }
    if reply.value.Saved? {
      r := PipelineResult(name, Success, Success, None, Some(reply.value));
    } else {
      r := PipelineResult(name, Success, Failure, Some(VStr(reply.value.error)), None);
    }
  }

  /** `_process_single_result` for a fixed configuration list and uploader. */
  function Outcome(apis: seq<seq<Entry>>, upload: Uploader): seq<Entry> -> PipelineResult {
    result => SingleOutcome(apis, result, upload)
  }

  /** The results of a full run, one per collector result. */
  function Outcomes(apis: seq<seq<Entry>>, results: seq<seq<Entry>>, upload: Uploader): (r: seq<PipelineResult>)
    ensures |r| == |results|
  {
    MapSeq(Outcome(apis, upload), results)
  }

  /** The i-th entry of a full run is the outcome of the i-th collector result. */
  lemma OutcomesEach(apis: seq<seq<Entry>>, results: seq<seq<Entry>>, upload: Uploader, i: nat)
    requires i < |results|
    ensures Outcomes(apis, results, upload)[i] == SingleOutcome(apis, results[i], upload)
  {
    MapSeqEach(Outcome(apis, upload), results, i);
  }

  /** How many collector results report success. */
  function CollectedCount(results: seq<seq<Entry>>): nat {
    if results == [] then 0
    else CollectedCount(results[..|results| - 1]) + (if Collected(results[|results| - 1]) then 1 else 0)
  }

  /** How many pipeline results have the given upload status. */
  function UploadCount(results: seq<PipelineResult>, stage: Stage): (n: nat)
    ensures n <= |results|
  {
    if results == [] then 0
    else UploadCount(results[..|results| - 1], stage) + (if results[|results| - 1].upload == stage then 1 else 0)
  }

  /** Appending one collector result appends its outcome and counts it once. */
  lemma OutcomesStep(apis: seq<seq<Entry>>, results: seq<seq<Entry>>, i: nat, upload: Uploader)
    requires i < |results|
    ensures Outcomes(apis, results[..i + 1], upload) == Outcomes(apis, results[..i], upload) + [SingleOutcome(apis, results[i], upload)]
  {
    MapSeqStep(Outcome(apis, upload), results, i);
  }

  /** Appending one pipeline result counts it under its own upload status. */
  lemma UploadCountStep(results: seq<PipelineResult>, r: PipelineResult, stage: Stage)
    ensures UploadCount(results + [r], stage) == UploadCount(results, stage) + (if r.upload == stage then 1 else 0)
  {
    assert (results + [r])[..|results|] == results;
  }

  /** Every result is skipped, uploaded or failed: the three counts add up,
      and the skipped ones are exactly the failed collections. */
  lemma {:induction false} UploadCountsPartition(apis: seq<seq<Entry>>, results: seq<seq<Entry>>, upload: Uploader)
    ensures var r := Outcomes(apis, results, upload);
      && UploadCount(r, Success) + UploadCount(r, Failure) == CollectedCount(results)
      && UploadCount(r, Skipped) == |results| - CollectedCount(results)
  {
    if results != [] {
      var init := results[..|results| - 1];
      var last := SingleOutcome(apis, results[|results| - 1], upload);
      OutcomeStages(apis, results[|results| - 1], upload);
      UploadCountsPartition(apis, init, upload);
      UploadCountStep(Outcomes(apis, init, upload), last, Success);
      UploadCountStep(Outcomes(apis, init, upload), last, Failure);
      UploadCountStep(Outcomes(apis, init, upload), last, Skipped);
    }
  }

  /** A copy of `self.stats` without the clock readings. */
  datatype Stats = Stats(
    totalApis: nat, successfulCollections: nat, successfulUploads: nat, failedCollections: nat, failedUploads: nat)

  /** `part / whole` as a float; a share of the whole lies between 0 and 1. */
  function Ratio(part: nat, whole: nat): (r: real)
    requires whole > 0
    ensures r * whole as real == part as real
    ensures part <= whole ==> 0.0 <= r <= 1.0
  {
    part as real / whole as real
  }

  datatype Summary = Summary(totalApis: nat, successfulEndToEnd: nat, collectionSuccessRate: real, uploadSuccessRate: real)

  /** The `summary` of a completed run: the collection rate over at least one
      API, the upload rate over the collected results or 0 without any; both
      are fractions when no more were collected than configured and no more
      uploaded than collected. */
  function SummaryOf(s: Stats): (r: Summary)
    ensures r.totalApis == s.totalApis && r.successfulEndToEnd == s.successfulUploads
    ensures r.collectionSuccessRate * (if s.totalApis == 0 then 1 else s.totalApis) as real == s.successfulCollections as real
    ensures s.successfulCollections == 0 ==> r.uploadSuccessRate == 0.0
    ensures s.successfulCollections > 0 ==> r.uploadSuccessRate * s.successfulCollections as real == s.successfulUploads as real
    ensures s.successfulCollections <= s.totalApis ==> 0.0 <= r.collectionSuccessRate <= 1.0
    ensures s.successfulUploads <= s.successfulCollections ==> 0.0 <= r.uploadSuccessRate <= 1.0
  {
    var collected := Ratio(s.successfulCollections, if s.totalApis == 0 then 1 else s.totalApis);
    var uploaded := if s.successfulCollections > 0 then Ratio(s.successfulUploads, s.successfulCollections) else 0.0;
    Summary(s.totalApis, s.successfulUploads, collected, uploaded)
  }

  /** The counters after an upload with status `stage`: a skipped result
      changes none, otherwise exactly one upload counter goes up. */
  function Recorded(s: Stats, stage: Stage): Stats {
    s.(successfulUploads := s.successfulUploads + (if stage == Success then 1 else 0),
       failedUploads := s.failedUploads + (if stage == Failure then 1 else 0))
  }

  /** The counters after one more result: collected or failed, then counted
      under its upload status. */
  function Counted(s: Stats, result: seq<Entry>, stage: Stage): Stats {
    var collected := if Collected(result) then s.(successfulCollections := s.successfulCollections + 1)
                     else s.(failedCollections := s.failedCollections + 1);
    Recorded(collected, stage)
  }

  /** The counters once a full run has gone through `results`. */
  function Tally(apis: seq<seq<Entry>>, results: seq<seq<Entry>>, upload: Uploader): Stats {
    if results == [] then Stats(|apis|, 0, 0, 0, 0)
    else
      var last := results[|results| - 1];
      Counted(Tally(apis, results[..|results| - 1], upload), last, SingleOutcome(apis, last, upload).upload)
  }

  lemma TallyStep(apis: seq<seq<Entry>>, results: seq<seq<Entry>>, i: nat, upload: Uploader)
    requires i < |results|
    ensures Tally(apis, results[..i + 1], upload)
         == Counted(Tally(apis, results[..i], upload), results[i], SingleOutcome(apis, results[i], upload).upload)
  {
    assert results[..i + 1][..i] == results[..i];
  }

  /** After a full run the collection counters split the results, the upload
      counters count the results by upload status, and together they split
      the collected results. */
  lemma {:induction false} TallyCounts(apis: seq<seq<Entry>>, results: seq<seq<Entry>>, upload: Uploader)
    ensures var s := Tally(apis, results, upload);
      && s.totalApis == |apis|
      && s.successfulCollections == CollectedCount(results)
      && s.successfulCollections + s.failedCollections == |results|
      && s.successfulUploads == UploadCount(Outcomes(apis, results, upload), Success)
      && s.failedUploads == UploadCount(Outcomes(apis, results, upload), Failure)
      && s.successfulUploads + s.failedUploads == s.successfulCollections
      && s.successfulUploads <= s.successfulCollections <= |results|
  {
    if results != [] {
      var init := results[..|results| - 1];
      var last := SingleOutcome(apis, results[|results| - 1], upload);
      OutcomeStages(apis, results[|results| - 1], upload);
      TallyCounts(apis, init, upload);
      UploadCountStep(Outcomes(apis, init, upload), last, Success);
      UploadCountStep(Outcomes(apis, init, upload), last, Failure);
    }
  }

  /** When the collector returns at most one result per configured API, both
      rates of a completed run are fractions. */
  lemma CompletedRatesAreFractions(apis: seq<seq<Entry>>, results: seq<seq<Entry>>, upload: Uploader)
    requires |results| <= |apis|
    ensures var summary := SummaryOf(Tally(apis, results, upload));
      && 0.0 <= summary.collectionSuccessRate <= 1.0
      && 0.0 <= summary.uploadSuccessRate <= 1.0
  {
    TallyCounts(apis, results, upload);
  }

  /** What `run_full_pipeline` returns. */
  datatype FullRun =
    | Completed(stats: Stats, results: seq<PipelineResult>, summary: Summary)
    | Aborted(error: string, stats: Stats)

  /** What `run_selective_pipeline` returns. */
  datatype Selection = Selection(
    selectedApis: seq<string>, successfulCount: nat, totalCount: nat, successRate: real, results: seq<PipelineResult>)

  /** `run_single_api_pipeline`, as a value: a collector exception fails both
      stages. */
  function SingleRun(apis: seq<seq<Entry>>, name: string, collectOne: string -> Result<seq<Entry>>, upload: Uploader)
    : (r: PipelineResult)
    ensures collectOne(name).Err? ==> r.collection == Failure && r.upload == Failure && r.apiName == VStr(name)
    ensures collectOne(name).Ok? ==> r == SingleOutcome(apis, collectOne(name).value, upload)
  {
    match collectOne(name)
    case Err(e) => PipelineResult(VStr(name), Failure, Failure, Some(VStr(e)), None)
    case Ok(result) => SingleOutcome(apis, result, upload)
  }

  /** The results of a selective run, one per requested name. */
  function SelectedRuns(apis: seq<seq<Entry>>, names: seq<string>, collectOne: string -> Result<seq<Entry>>, upload: Uploader)
    : (r: seq<PipelineResult>)
    ensures |r| == |names|
    ensures forall i :: 0 <= i < |names| ==> r[i] == SingleRun(apis, names[i], collectOne, upload)
  {
    seq(|names|, i requires 0 <= i < |names| => SingleRun(apis, names[i], collectOne, upload))
  }

  lemma SelectedRunsStep(apis: seq<seq<Entry>>, names: seq<string>, i: nat, collectOne: string -> Result<seq<Entry>>, upload: Uploader)
    requires i < |names|
    ensures SelectedRuns(apis, names[..i + 1], collectOne, upload)
         == SelectedRuns(apis, names[..i], collectOne, upload) + [SingleRun(apis, names[i], collectOne, upload)]
  {
  }

  /** The counters after a selective run through `names`, from `s`: only a
      run whose collector returned goes through `_process_single_result`. */
  function SelectedTally(s: Stats, apis: seq<seq<Entry>>, names: seq<string>, collectOne: string -> Result<seq<Entry>>, upload: Uploader)
    : Stats
  {
    if names == [] then s
    else
      var last := names[|names| - 1];
      var before := SelectedTally(s, apis, names[..|names| - 1], collectOne, upload);
      if collectOne(last).Ok? then Recorded(before, SingleRun(apis, last, collectOne, upload).upload) else before
  }

  lemma SelectedTallyStep(s: Stats, apis: seq<seq<Entry>>, names: seq<string>, i: nat, collectOne: string -> Result<seq<Entry>>, upload: Uploader)
    requires i < |names|
    ensures SelectedTally(s, apis, names[..i + 1], collectOne, upload)
         == (var before := SelectedTally(s, apis, names[..i], collectOne, upload);
             if collectOne(names[i]).Ok? then Recorded(before, SingleRun(apis, names[i], collectOne, upload).upload) else before)
  {
    assert names[..i + 1][..i] == names[..i];
  }

  /** A selective run leaves the API total and both collection counters as
      they were and adds one successful upload per uploaded result. */
  lemma {:induction false} SelectedTallyCounts(s: Stats, apis: seq<seq<Entry>>, names: seq<string>, collectOne: string -> Result<seq<Entry>>, upload: Uploader)
    ensures var t := SelectedTally(s, apis, names, collectOne, upload);
      && t.totalApis == s.totalApis
      && t.successfulCollections == s.successfulCollections
      && t.failedCollections == s.failedCollections
      && t.successfulUploads == s.successfulUploads + UploadCount(SelectedRuns(apis, names, collectOne, upload), Success)
  {
    if names != [] {
      var n := |names| - 1;
      SelectedTallyCounts(s, apis, names[..n], collectOne, upload);
      SelectedTallyStep(s, apis, names, n, collectOne, upload);
      SelectedRunsStep(apis, names, n, collectOne, upload);
      assert names[..n + 1] == names;
      UploadCountStep(SelectedRuns(apis, names[..n], collectOne, upload), SingleRun(apis, names[n], collectOne, upload), Success);
    }
  }

  /** A selective run adds one failed upload per failed result, except for
      the runs whose collector raised: those are reported as failed but not
      counted. */
  lemma {:induction false} SelectedTallyFailures(s: Stats, apis: seq<seq<Entry>>, names: seq<string>, collectOne: string -> Result<seq<Entry>>, upload: Uploader)
    ensures var t := SelectedTally(s, apis, names, collectOne, upload);
      && s.failedUploads <= t.failedUploads <= s.failedUploads + UploadCount(SelectedRuns(apis, names, collectOne, upload), Failure)
      && ((forall i :: 0 <= i < |names| ==> collectOne(names[i]).Ok?)
          ==> t.failedUploads == s.failedUploads + UploadCount(SelectedRuns(apis, names, collectOne, upload), Failure))
  {
    if names != [] {
      var n := |names| - 1;
      SelectedTallyFailures(s, apis, names[..n], collectOne, upload);
      SelectedTallyStep(s, apis, names, n, collectOne, upload);
      SelectedRunsStep(apis, names, n, collectOne, upload);
      assert names[..n + 1] == names;
      UploadCountStep(SelectedRuns(apis, names[..n], collectOne, upload), SingleRun(apis, names[n], collectOne, upload), Failure);
    }
  }

  const RequiredFields: seq<string> := ["name", "url", "output_folder"]
  const RecommendedFields: seq<string> := ["csv_prefix", "description"]

  /** One line for every field of `fields`, in order, that `config` lacks. */
  function MissingLines(config: seq<Entry>, fields: seq<string>, line: string -> string): (r: seq<string>)
    ensures |r| <= |fields|
  {
    if fields == [] then []
    else
      var init := MissingLines(config, fields[..|fields| - 1], line);
      var field := fields[|fields| - 1];
      if field in Keys(config) then init else init + [line(field)]
  }

  /** The inner loops of `validate_configuration`: a line for each field
      `config` lacks, in the order of `fields`. */
  method CheckFields(config: seq<Entry>, fields: seq<string>, line: string -> string) returns (lines: seq<string>)
    ensures lines == MissingLines(config, fields, line)
  {
    lines := [];
    for j := 0 to |fields|
      invariant lines == MissingLines(config, fields[..j], line)
    {
      MissingLinesStep(config, fields, j, line);
      if fields[j] !in Keys(config) {
        lines := lines + [line(fields[j])];
      }
    }
    assert fields[..|fields|] == fields;
  }

  /** `config` has every field of `fields`. */
  predicate HasFields(config: seq<Entry>, fields: seq<string>) {
    forall f :: f in fields ==> f in Keys(config)
  }

  /** No line exactly when every field is present. */
  lemma {:induction false} NoMissingLines(config: seq<Entry>, fields: seq<string>, line: string -> string)
    ensures MissingLines(config, fields, line) == [] <==> HasFields(config, fields)
  {
    if fields != [] {
      var init := fields[..|fields| - 1];
      var last := fields[|fields| - 1];
      NoMissingLines(config, init, line);
      assert fields == init + [last];
      if MissingLines(config, fields, line) == [] {
        assert last in Keys(config) && MissingLines(config, init, line) == [];
        forall f | f in fields ensures f in Keys(config) {
          assert f in init || f == last;
        }
      } else {
        assert !HasFields(config, fields);
      }
    }
  }

  lemma MissingLinesStep(config: seq<Entry>, fields: seq<string>, j: nat, line: string -> string)
    requires j < |fields|
    ensures MissingLines(config, fields[..j + 1], line)
         == MissingLines(config, fields[..j], line) + (if fields[j] in Keys(config) then [] else [line(fields[j])])
  {
    assert fields[..j + 1][..j] == fields[..j];
  }

  /** Builds the line for a missing field from the API's index and configuration. */
  type LineMaker = (nat, seq<Entry>) -> string -> string

  /** The lines about the missing fields of every configuration, API by API. */
  function Findings(apis: seq<seq<Entry>>, fields: seq<string>, line: LineMaker): seq<string> {
    if apis == [] then []
    else
      var k := |apis| - 1;
      Findings(apis[..k], fields, line) + MissingLines(apis[k], fields, line(k, apis[k]))
  }

  lemma FindingsStep(apis: seq<seq<Entry>>, fields: seq<string>, i: nat, line: LineMaker)
    requires i < |apis|
    ensures Findings(apis[..i + 1], fields, line) == Findings(apis[..i], fields, line) + MissingLines(apis[i], fields, line(i, apis[i]))
  {
    assert apis[..i + 1][..i] == apis[..i];
  }

  /** Every configuration of `apis` has every field of `fields`. */
  predicate AllHaveFields(apis: seq<seq<Entry>>, fields: seq<string>) {
    forall i :: 0 <= i < |apis| ==> HasFields(apis[i], fields)
  }

  /** No finding exactly when every configuration has every field. */
  lemma {:induction false} NoFindings(apis: seq<seq<Entry>>, fields: seq<string>, line: LineMaker)
    ensures Findings(apis, fields, line) == [] <==> AllHaveFields(apis, fields)
  {
    if apis != [] {
      var k := |apis| - 1;
      var init := apis[..k];
      NoFindings(init, fields, line);
      NoMissingLines(apis[k], fields, line(k, apis[k]));
      assert AllHaveFields(apis, fields) <==> AllHaveFields(init, fields) && HasFields(apis[k], fields) by {
        assert forall i :: 0 <= i < k ==> init[i] == apis[i];
      }
    }
  }

  /** `f"API {i}: Missing required field '{field}'"` */
  function IssueLine(i: nat, config: seq<Entry>): string -> string {
    field => "API " + NatToString(i) + ": Missing required field '" + field + "'"
  }

  /** `f"API {i} ({api_config.get('name', 'unnamed')}): Missing recommended field '{field}'"` */
  function WarningLine(i: nat, config: seq<Entry>): string -> string {
    field => "API " + NatToString(i) + " (" + Str(Lookup(config, "name").GetOr(VStr("unnamed"))) + "): Missing recommended field '" + field + "'"
  }

  const Issue: LineMaker := IssueLine
  const Warning: LineMaker := WarningLine

  /** What `validate_configuration` returns. */
  datatype Validation = Validation(
    configValid: bool, apisConfigured: nat, issues: seq<string>, warnings: seq<string>, s3Accessible: bool)

  /** `validate_configuration`, as a value; `bucketError` is the exception of
      the bucket check, if any. */
  function Validated(apis: seq<seq<Entry>>, bucketError: Option<string>): Validation {
    var issues := Findings(apis, RequiredFields, Issue) + (if bucketError.Some? then ["S3 access failed: " + bucketError.value] else []);
    Validation(issues == [], |apis|, issues, Findings(apis, RecommendedFields, Warning), bucketError.None?)
  }

  /** The configuration is valid exactly when every API has its required
      fields and the bucket is reachable; missing recommended fields only warn. */
  lemma ValidIffComplete(apis: seq<seq<Entry>>, bucketError: Option<string>)
    ensures Validated(apis, bucketError).configValid <==>
      && bucketError.None?
      && forall i, f :: 0 <= i < |apis| && f in RequiredFields ==> f in Keys(apis[i])
    ensures Validated(apis, bucketError).configValid <==> Validated(apis, bucketError).issues == []
  {
    NoFindings(apis, RequiredFields, Issue);
  }

  /** The pipeline: the API list it was configured with and its counters. */
  class Pipeline {
    const apis: seq<seq<Entry>>
    var totalApis: nat
    var successfulCollections: nat
    var successfulUploads: nat
    var failedCollections: nat
    var failedUploads: nat

    constructor (apis: seq<seq<Entry>>)
      ensures this.apis == apis
      ensures Snapshot() == Stats(0, 0, 0, 0, 0)
    {
      this.apis := apis;
      totalApis, successfulCollections, successfulUploads, failedCollections, failedUploads := 0, 0, 0, 0, 0;
    }

    function Snapshot(): Stats
      reads this
    {
      Stats(totalApis, successfulCollections, successfulUploads, failedCollections, failedUploads)
    }

    /** `_process_single_result`: a skipped result changes no counter;
        otherwise exactly one of the two upload counters goes up. */
    method ProcessSingleResult(result: seq<Entry>, upload: Uploader) returns (r: PipelineResult)
      modifies this
      ensures r == SingleOutcome(apis, result, upload)
      ensures Snapshot() == Recorded(old(Snapshot()), r.upload)
    {
      r := ResultEntry(apis, result, upload);
      if r.upload == Success {
        successfulUploads := successfulUploads + 1;
      } else if r.upload == Failure {
        failedUploads := failedUploads + 1;
      }
    }

    /** The body of the loop of `run_full_pipeline`: count the collection,
        then process the result. */
    method CountAndProcess(result: seq<Entry>, upload: Uploader) returns (r: PipelineResult)
      modifies this
      ensures r == SingleOutcome(apis, result, upload)
      ensures Snapshot() == Counted(old(Snapshot()), result, r.upload)
    {
      if Collected(result) {
        successfulCollections := successfulCollections + 1;
      } else {
        failedCollections := failedCollections + 1;
      }
      r := ProcessSingleResult(result, upload);
    }

    /** `run_full_pipeline`: reset the counters, then count every collector
        result once as collected or failed and every collected one once as
        uploaded or failed. `collect` is the collector's `run_all_apis`. */
    method RunFullPipeline(collect: Result<seq<seq<Entry>>>, upload: Uploader) returns (run: FullRun)
      modifies this
      ensures collect.Err? ==> run == Aborted(collect.error, Stats(|apis|, 0, 0, 0, 0)) && run.stats == Snapshot()
      ensures collect.Ok? ==>
        && Snapshot() == Tally(apis, collect.value, upload)
        && run == Completed(Snapshot(), Outcomes(apis, collect.value, upload), SummaryOf(Snapshot()))
    {
      totalApis, successfulCollections, successfulUploads, failedCollections, failedUploads := |apis|, 0, 0, 0, 0;
      if collect.Err? {
        return Aborted(collect.error, Snapshot());
      }
      var results := collect.value;
      var pipelineResults: seq<PipelineResult> := [];
      for i := 0 to |results|
        invariant Snapshot() == Tally(apis, results[..i], upload)
        invariant pipelineResults == Outcomes(apis, results[..i], upload)
      {
        OutcomesStep(apis, results, i, upload);
        TallyStep(apis, results, i, upload);
        var result := CountAndProcess(results[i], upload);
        pipelineResults := pipelineResults + [result];
      }
      assert results[..|results|] == results;
      run := Completed(Snapshot(), pipelineResults, SummaryOf(Snapshot()));
    }

    /** `run_single_api_pipeline` */
    method RunSingleApiPipeline(name: string, collectOne: string -> Result<seq<Entry>>, upload: Uploader)
      returns (r: PipelineResult)
      modifies this
      ensures r == SingleRun(apis, name, collectOne, upload)
      ensures collectOne(name).Err? ==> Snapshot() == old(Snapshot())
      ensures collectOne(name).Ok? ==> Snapshot() == Recorded(old(Snapshot()), r.upload)
    {
      var collected := collectOne(name);
      if collected.Err? {
        return PipelineResult(VStr(name), Failure, Failure, Some(VStr(collected.error)), None);
      }
      r := ProcessSingleResult(collected.value, upload);
    }

    /** `run_selective_pipeline`: one result per name, in order, and a summary
        counting the uploaded ones; the rate is 0 for no names. */
    method RunSelectivePipeline(names: seq<string>, collectOne: string -> Result<seq<Entry>>, upload: Uploader)
      returns (s: Selection)
      modifies this
      ensures s.selectedApis == names && s.totalCount == |names|
      ensures s.results == SelectedRuns(apis, names, collectOne, upload)
      ensures s.successfulCount == UploadCount(s.results, Success)
      ensures names == [] ==> s.successRate == 0.0
      ensures names != [] ==> s.successRate == Ratio(s.successfulCount, |names|) && 0.0 <= s.successRate <= 1.0
      ensures Snapshot() == SelectedTally(old(Snapshot()), apis, names, collectOne, upload)
    {
      var results: seq<PipelineResult> := [];
      for i := 0 to |names|
        invariant results == SelectedRuns(apis, names[..i], collectOne, upload)
        invariant Snapshot() == SelectedTally(old(Snapshot()), apis, names[..i], collectOne, upload)
      {
        var result := RunSingleApiPipeline(names[i], collectOne, upload);
        SelectedRunsStep(apis, names, i, collectOne, upload);
        SelectedTallyStep(old(Snapshot()), apis, names, i, collectOne, upload);
        results := results + [result];
      }
      assert names[..|names|] == names;
      var successful := UploadCount(results, Success);
      var rate := if names != [] then Ratio(successful, |names|) else 0.0;
      s := Selection(names, successful, |names|, rate, results);
    }

    /** `validate_configuration`: every missing required field is an issue and
        makes the configuration invalid, every missing recommended field a
        warning; a failed bucket check is one more issue. */
    method ValidateConfiguration(bucketError: Option<string>) returns (v: Validation)
      ensures v == Validated(apis, bucketError)
    {
      var valid := true;
      var issues: seq<string> := [];
      var warnings: seq<string> := [];
      for i := 0 to |apis|
        invariant issues == Findings(apis[..i], RequiredFields, Issue)
        invariant warnings == Findings(apis[..i], RecommendedFields, Warning)
        invariant valid <==> issues == []
      {
        var config := apis[i];
        FindingsStep(apis, RequiredFields, i, Issue);
        FindingsStep(apis, RecommendedFields, i, Warning);
        var missing := CheckFields(config, RequiredFields, Issue(i, config));
        if missing != [] {
          issues := issues + missing;
          valid := false;
        }
        var absent := CheckFields(config, RecommendedFields, Warning(i, config));
        warnings := warnings + absent;
      }
      assert apis[..|apis|] == apis;
      if bucketError.Some? {
        issues := issues + ["S3 access failed: " + bucketError.value];
        valid := false;
      }
      v := Validation(valid, |apis|, issues, warnings, bucketError.None?);
    }
  }
}
