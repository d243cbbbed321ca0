/** `S3DataPersistence` (persistence.py): choosing a storage format from a
    file extension or from the data itself, preparing the upload body for the
    chosen format, counting records, building the object key and metadata,
    the `save_data` boundary that turns every exception into a failure
    result, and the format filter of `list_files`. The S3 client is not
    modelled: the outcome of `put_object` and the listing are parameters. */
module Persistence {
  import opened Base
  import opened Text
  import opened Json
  import opened Calendar
  import opened Xml
  import opened Encoding

  datatype DataFormat = CSV | JSON | TXT | PARQUET | XML | TSV | HTML | YAML | BINARY
  {
    /** `DataFormat.value` */
    function Label(): string {
      match this
      case CSV => "csv"
      case JSON => "json"
      case TXT => "txt"
      case PARQUET => "parquet"
      case XML => "xml"
      case TSV => "tsv"
      case HTML => "html"
      case YAML => "yaml"
      case BINARY => "bin"
    }

    /** `self.content_types[format]` */
    function ContentType(): string {
      match this
      case CSV => "text/csv"
      case JSON => "application/json"
      case TXT => "text/plain"
      case PARQUET => "application/octet-stream"
      case XML => "application/xml"
      case TSV => "text/tab-separated-values"
      case HTML => "text/html"
      case YAML => "text/yaml"
      case BINARY => "application/octet-stream"
    }
  }

  /** The extensions `_detect_format_from_extension` knows. */
  const ExtensionMapping: map<string, DataFormat> := map[
    "csv" := CSV, "json" := JSON, "txt" := TXT, "xml" := XML, "tsv" := TSV,
    "html" := HTML, "htm" := HTML, "yaml" := YAML, "yml" := YAML,
    "parquet" := PARQUET, "bin" := BINARY]

  /** `file_path.lower().split('.')[-1] if '.' in file_path else ''` */
  function ExtensionOf(path: string): string {
    if '.' in path then
      var parts := Split(Lower(path), ".");
      parts[|parts| - 1]
    else ""
  }

  /** `_detect_format_from_extension` */
  function DetectFormatFromExtension(path: string): (r: Option<DataFormat>)
    ensures r.Some? ==> '.' in path
    ensures r.Some? <==> ExtensionOf(path) in ExtensionMapping && path != []
  {
    if path == [] then None
    else
      var ext := ExtensionOf(path);
      if ext in ExtensionMapping then Some(ExtensionMapping[ext]) else None
  }

  /** The known extensions are lower-case and dot-free. */
  lemma KnownExtensionPlain(ext: string)
    requires ext in ExtensionMapping
    ensures '.' !in ext && forall i :: 0 <= i < |ext| ==> !('A' <= ext[i] <= 'Z')
  {
    if ext == "csv" {} else if ext == "json" {} else if ext == "txt" {} else if ext == "xml" {}
    else if ext == "tsv" {} else if ext == "html" {} else if ext == "htm" {} else if ext == "yaml" {}
    else if ext == "yml" {} else if ext == "parquet" {} else {
      assert ext == "bin";
    }
  }

  /** A path ending in `.` and a known extension is detected as that
      extension's format, whatever comes before the last dot. */
  lemma ExtensionDetected(stem: string, ext: string)
    requires ext in ExtensionMapping
    ensures DetectFormatFromExtension(stem + "." + ext) == Some(ExtensionMapping[ext])
  {
    var path := stem + "." + ext;
    assert path[|stem|] == '.';
    KnownExtensionPlain(ext);
    LowerFixed(ext);
    LowerAppend(stem + ".", ext);
    LowerAppend(stem, ".");
    assert Lower(".") == ".";
    assert Lower(path) == Lower(stem) + ['.'] + ext;
    SplitLastPiece(Lower(stem), '.', ext);
  }

  /** Every format is detected back from its own `.value` as extension. */
  lemma FormatExtensionRoundTrip(stem: string, f: DataFormat)
    ensures DetectFormatFromExtension(stem + "." + f.Label()) == Some(f)
  {
    LabelMapped(f);
    ExtensionDetected(stem, f.Label());
  }

  /** Each format's `.value` is a known extension that maps back to it. */
  lemma LabelMapped(f: DataFormat)
    ensures f.Label() in ExtensionMapping && ExtensionMapping[f.Label()] == f
  {
    match f
    case CSV => case JSON => case TXT => case PARQUET => case XML =>
    case TSV => case HTML => case YAML => case BINARY =>
  }

  /** Detection ignores letter case. */
  lemma DetectIgnoresCase(path: string)
    ensures DetectFormatFromExtension(Lower(path)) == DetectFormatFromExtension(path)
  {
    assert Lower(Lower(path)) == Lower(path);
    DotKept(path);
    assert ExtensionOf(Lower(path)) == ExtensionOf(path);
  }

  /** Lower-casing keeps the dots of a path. */
  lemma DotKept(path: string)
    ensures '.' in Lower(path) <==> '.' in path
  {
    if '.' in path {
      var k :| 0 <= k < |path| && path[k] == '.';
      assert Lower(path)[k] == '.';
    }
    if '.' in Lower(path) {
      var k :| 0 <= k < |Lower(path)| && Lower(path)[k] == '.';
      assert path[k] == '.';
    }
  }

  /** The XML test of the sniffing, on the stripped, lower-cased text. */
  predicate LooksXml(t: string) {
    StartsWith(t, "<?xml") || (StartsWith(t, "<") && EndsWith(t, ">"))
  }

  /** The HTML test of the sniffing, on the stripped, lower-cased text. */
  predicate LooksHtml(t: string) {
    StartsWith(t, "<!doctype html") || Contains(t, "<html")
  }

  /** The ordered text sniffing of `_auto_detect_format` for a string: each
      format is chosen exactly when its own test holds and no earlier one does. */
  function SniffText(s: string): (r: DataFormat)
    ensures r in {XML, HTML, TSV, CSV, TXT}
    ensures var t := Lower(Strip(s));
      && (r == XML <==> LooksXml(t))
      && (r == HTML <==> !LooksXml(t) && LooksHtml(t))
      && (r == TSV <==> !LooksXml(t) && !LooksHtml(t) && '\t' in s && '\n' in s)
      && (r == CSV <==> !LooksXml(t) && !LooksHtml(t) && !('\t' in s && '\n' in s) && ',' in s && '\n' in s)
      && (r == TXT <==> !LooksXml(t) && !LooksHtml(t) && ('\n' !in s || ('\t' !in s && ',' !in s)))
  {
    var t := Lower(Strip(s));
    if LooksXml(t) then XML
    else if LooksHtml(t) then HTML
    else if '\t' in s && '\n' in s then TSV
    else if ',' in s && '\n' in s then CSV
    else TXT
  }

  /** Because the XML rule is tried first, a complete HTML document — text
      that opens with `<html` and closes with `>` — is classified as XML. */
  lemma HtmlDocumentSniffedAsXml(s: string)
    requires StartsWith(Lower(Strip(s)), "<html") && EndsWith(Lower(Strip(s)), ">")
    ensures SniffText(s) == XML
  {
    assert Lower(Strip(s))[0] == '<';
  }

  /** `_auto_detect_format(data, file_path)` */
  function AutoDetectFormat(data: Value, path: string): (r: DataFormat)
    ensures path != [] && DetectFormatFromExtension(path).Some? ==> r == DetectFormatFromExtension(path).value
    ensures (path == [] || DetectFormatFromExtension(path).None?) ==>
      r == match data
        case VTable(_) => CSV
        case VDict(_) => JSON
        case VList(_) => JSON
        case VStr(s) => SniffText(s)
        case VBytes(_) => BINARY
        case _ => TXT
  {
    var hinted := if path != [] then DetectFormatFromExtension(path) else None;
    if hinted.Some? then hinted.value
    else if data.VTable? then CSV
    else if data.IsContainer() then JSON
    else if data.VStr? then SniffText(data.s)
    else if data.VBytes? then BINARY
    else TXT
  }

  /** `_calculate_record_count` */
  function RecordCount(data: Value): (r: nat)
    ensures data.VTable? ==> r == |data.table.rows|
    ensures data.VList? ==> r == |data.items|
    ensures data.VDict? ==> r == 1
    ensures data.VStr? ==> (r == 0 <==> data.s == [])
    ensures data.VStr? && data.s != [] ==> r == Count(data.s, '\n') + 1
    ensures !data.VTable? && !data.VList? && !data.VStr? ==> r == 1
  {
    match data
    case VTable(t) => |t.rows|
    case VList(items) => |items|
    case VDict(_) => 1
    case VStr(s) => if s == [] then 0 else Count(s, '\n') + 1
    case _ => 1
  }

  /** A non-empty string counts one record per line. */
  lemma RecordCountIsLines(s: string)
    requires s != []
    ensures RecordCount(VStr(s)) == |Split(s, "\n")|
  {
    SplitCount(s, '\n');
  }

  /** `_prepare_binary_data` */
  function PrepareBinary(data: Value): (r: seq<byte>)
    ensures data.VBytes? ==> r == data.bytes
    ensures data.VStr? ==> r == Utf8(data.s)
    ensures !data.VBytes? ==> r == Utf8(Str(data))
  {
    if data.VBytes? then data.bytes else Utf8(Str(data))
  }

  /** `_prepare_json_data`: a DataFrame is written as its records. */
  function PrepareJson(data: Value): (r: Encoded)
    ensures r.Written? && r.writer == JsonDumps(2)
    ensures !data.VTable? ==> r.input == data
    ensures data.VTable? ==>
      && r.input.VList? && |r.input.items| == |data.table.rows|
      && forall i :: 0 <= i < |r.input.items| ==> r.input.items[i].VDict?
  {
    Written(JsonDumps(2), if data.VTable? then Records(data.table) else data)
  }

  /** `_prepare_txt_data`: a DataFrame as tab-separated text, anything else as `str()`. */
  function PrepareTxt(data: Value): (r: Encoded)
    ensures data.VTable? ==> r == Written(PandasCsv('\t'), data)
    ensures !data.VTable? ==> r.Bytes? && r.bytes == Utf8(Str(data))
    ensures data.VStr? ==> r == Bytes(Utf8(data.s))
  {
    if data.VTable? then Written(PandasCsv('\t'), data) else Bytes(Utf8(Str(data)))
  }

  /** `_prepare_data`: the preparation for the chosen format. Every member of
      `DataFormat` has an entry in the dispatch table, so the text fallback
      for a format without one is never taken. `yamlAvailable` says whether
      `import yaml` succeeds. */
  function PrepareData(data: Value, format: DataFormat, yamlAvailable: bool): (r: Result<Encoded>)
    ensures r.Err? <==> (format == CSV || format == PARQUET) && !data.VTable?
    ensures format == BINARY ==> r == Ok(Bytes(PrepareBinary(data)))
    ensures format == TXT ==> r == Ok(PrepareTxt(data))
    ensures format in {XML, HTML} && data.VStr? ==> r == Ok(Bytes(Utf8(data.s)))
    ensures format == XML && !data.VStr? && !data.VTable? ==>
      r.Ok? && r.value.Written? && r.value.writer == ElementTreeXml(Build(data, "root", true))
    ensures format == YAML && !yamlAvailable ==> r == Ok(PrepareJson(data))
  {
    match format
    case CSV =>
      if data.VTable? then Ok(Written(PandasCsv(','), data))
      else Err("'" + data.TypeName() + "' object has no attribute 'to_csv'")
    case JSON => Ok(PrepareJson(data))
    case TXT => Ok(PrepareTxt(data))
    case PARQUET =>
      if data.VTable? then Ok(Written(PandasParquet, data))
      else Err("Parquet format requires pandas DataFrame")
    case XML =>
      if data.VStr? then Ok(Bytes(Utf8(data.s)))
      else if data.VTable? then Ok(Written(PandasXml, data))
      else Ok(Written(ElementTreeXml(Build(data, "root", true)), data))
    case TSV =>
      if data.VTable? then Ok(Written(PandasCsv('\t'), data)) else Ok(Bytes(Utf8(Str(data))))
    case HTML =>
      if data.VStr? then Ok(Bytes(Utf8(data.s)))
      else if data.VTable? then Ok(Written(PandasHtml, data))
      else Ok(Written(JsonInHtml, data))
    case YAML =>
      if !yamlAvailable then Ok(PrepareJson(data))
      else if data.VTable? then Ok(Written(YamlDump, Records(data.table)))
      else if data.VStr? then Ok(Bytes(Utf8(data.s)))
      else Ok(Written(YamlDump, data))
    case BINARY => Ok(Bytes(PrepareBinary(data)))
  }

  /** The element tree written for a dict or list has no ' ' or '-' in any tag. */
  lemma XmlTreeTagsSafe(data: Value, yamlAvailable: bool)
    requires !data.VStr? && !data.VTable?
    ensures var r := PrepareData(data, XML, yamlAvailable);
      r.Ok? && r.value.Written? && r.value.writer.ElementTreeXml? && TagsSafe(r.value.writer.tree)
  {
    SanitizedTagsSafe(data, "root");
  }

  /** `f"{file_prefix}_{timestamp}.{ext}"` or `f"{file_prefix}.{ext}"` */
  function FileName(prefix: string, format: DataFormat, includeTimestamp: bool, now: Clock): (r: string)
    requires now.Valid()
    ensures EndsWith(r, "." + format.Label())
    ensures StartsWith(r, prefix)
    ensures includeTimestamp ==> |r| == |prefix| + 1 + 15 + 1 + |format.Label()| && r[|prefix|] == '_'
    ensures includeTimestamp ==> r == prefix + "_" + CompactStamp(now) + "." + format.Label()
    ensures includeTimestamp ==> ParseCompactStamp(r[|prefix| + 1..|prefix| + 16]) == Some(now.(microsecond := 0))
    ensures !includeTimestamp ==> r == prefix + "." + format.Label()
  {
    var r := Dotted(prefix, if includeTimestamp then "_" + CompactStamp(now) else [], format.Label());
    if includeTimestamp then
      var stamp := CompactStamp(now);
      assert r == prefix + "_" + stamp + "." + format.Label();
      assert r[|prefix| + 1..|prefix| + 16] == stamp;
      CompactStampRoundTrip(now);
      r
    else r
  }

  /** A name made of a prefix, a middle part, a dot and an extension. */
  function Dotted(prefix: string, middle: string, ext: string): (r: string)
    ensures StartsWith(r, prefix) && EndsWith(r, "." + ext)
    ensures |r| == |prefix| + |middle| + 1 + |ext|
    ensures middle != [] ==> r[|prefix|] == middle[0]
    ensures middle == [] ==> r == prefix + "." + ext
  {
    Affixes(prefix, middle, "." + ext);
    assert prefix + [] + ("." + ext) == prefix + "." + ext;
    prefix + middle + ("." + ext)
  }

  /** The folder part of the key: `folder_path.strip('/')`, if anything is left. */
  function KeyFolder(folder: Option<string>): (r: Option<string>)
    ensures r.Some? ==> r.value != [] && r.value[0] != '/' && r.value[|r.value| - 1] != '/'
  {
    if folder.Some? && folder.value != [] then
      var stripped := StripChar(folder.value, '/');
      if stripped != [] then Some(stripped) else None
    else None
  }

  /** The S3 key `save_data` writes to. */
  function ObjectKey(prefix: string, format: DataFormat, includeTimestamp: bool, folder: Option<string>, now: Clock): (r: string)
    requires now.Valid()
    ensures KeyFolder(folder).Some? ==> r == KeyFolder(folder).value + "/" + FileName(prefix, format, includeTimestamp, now)
    ensures KeyFolder(folder).None? ==> r == FileName(prefix, format, includeTimestamp, now)
    ensures EndsWith(r, "." + format.Label())
  {
    var name := FileName(prefix, format, includeTimestamp, now);
    match KeyFolder(folder)
    case Some(f) =>
      EndsWithAppend(f + "/", name, "." + format.Label());
      f + "/" + name
    case None => name
  }

  /** The format `save_data` uses: the caller's, or the one detected with the
      file prefix as path hint. */
  function ChosenFormat(data: Value, prefix: string, format: Option<DataFormat>): DataFormat {
    if format.Some? then format.value else AutoDetectFormat(data, prefix)
  }

  /** The metadata `save_data` starts from. */
  function BaseMetadata(data: Value, format: DataFormat, uploadTimestamp: string): seq<Entry> {
    var common := [Entry("upload_timestamp", VStr(uploadTimestamp)),
                   Entry("record_count", VStr(NatToString(RecordCount(data)))),
                   Entry("data_format", VStr(format.Label()))];
    if data.VTable? then
      common + [Entry("columns", VStr(NatToString(|data.table.columns|))),
                Entry("column_names", VStr(Join(data.table.columns, ",")))]
    else common
  }

  /** The default metadata records the upload time, the record count and the
      format, and for a DataFrame its column count and comma-joined names. */
  lemma BaseMetadataFields(data: Value, format: DataFormat, uploadTimestamp: string)
    ensures var r := BaseMetadata(data, format, uploadTimestamp);
      && Lookup(r, "upload_timestamp") == Some(VStr(uploadTimestamp))
      && Lookup(r, "record_count") == Some(VStr(NatToString(RecordCount(data))))
      && Lookup(r, "data_format") == Some(VStr(format.Label()))
      && (data.VTable? ==>
            && Lookup(r, "columns") == Some(VStr(NatToString(|data.table.columns|)))
            && Lookup(r, "column_names") == Some(VStr(Join(data.table.columns, ","))))
      && (!data.VTable? ==> Keys(r) == ["upload_timestamp", "record_count", "data_format"])
  {
    var common := [Entry("upload_timestamp", VStr(uploadTimestamp)),
                   Entry("record_count", VStr(NatToString(RecordCount(data)))),
                   Entry("data_format", VStr(format.Label()))];
    LookupThree(common, "upload_timestamp");
    LookupThree(common, "record_count");
    LookupThree(common, "data_format");
    if data.VTable? {
      var extra := [Entry("columns", VStr(NatToString(|data.table.columns|))),
                    Entry("column_names", VStr(Join(data.table.columns, ",")))];
      LookupThree(common, "columns");
      LookupThree(common, "column_names");
      LookupAppend(common, extra, "upload_timestamp");
      LookupAppend(common, extra, "record_count");
      LookupAppend(common, extra, "data_format");
      LookupAppend(common, extra, "columns");
      LookupAppend(common, extra, "column_names");
      assert extra[1..] == [extra[1]];
    }
  }

  /** `for key, value in metadata.items(): s3_metadata[key] = str(value)` */
  function WithCallerMetadata(meta: seq<Entry>, caller: seq<Entry>): seq<Entry>
    decreases |caller|
  {
    if caller == [] then meta
    else WithCallerMetadata(Store(meta, caller[0].key, VStr(Str(caller[0].val))), caller[1..])
  }

  /** Every caller key ends up holding `str()` of the caller's value, overriding
      a default of the same name; every other key keeps its default. */
  lemma {:induction false} CallerMetadataOverrides(meta: seq<Entry>, caller: seq<Entry>)
    requires DistinctKeys(caller)
    ensures forall i :: 0 <= i < |caller| ==>
      Lookup(WithCallerMetadata(meta, caller), caller[i].key) == Some(VStr(Str(caller[i].val)))
    ensures forall k :: k !in Keys(caller) ==> Lookup(WithCallerMetadata(meta, caller), k) == Lookup(meta, k)
    decreases |caller|
  {
    if caller != [] {
      var e := caller[0];
      var stored := Store(meta, e.key, VStr(Str(e.val)));
      var rest := caller[1..];
      CallerMetadataOverrides(stored, rest);
      forall k | k !in Keys(caller) ensures Lookup(WithCallerMetadata(meta, caller), k) == Lookup(meta, k) {
        assert k != e.key && k !in Keys(rest) by {
          assert Keys(caller) == [e.key] + Keys(rest);
        }
        StoreOther(meta, e.key, VStr(Str(e.val)), k);
      }
      forall i | 0 <= i < |caller|
        ensures Lookup(WithCallerMetadata(meta, caller), caller[i].key) == Some(VStr(Str(caller[i].val)))
      {
        if i == 0 {
          assert e.key !in Keys(rest) by {
            forall j | 0 <= j < |rest| ensures Keys(rest)[j] != e.key {
              assert rest[j] == caller[j + 1];
            }
          }
        } else {
          assert caller[i] == rest[i - 1];
        }
      }
    }
  }

  /** What `save_data` returns: the upload's details, or the failure. */
  datatype SaveResult =
    | Saved(key: string, bucket: string, format: DataFormat, recordCount: nat, fileSize: nat,
            contentType: string, objectMetadata: seq<Entry>, uploadTimestamp: string)
    | Failed(error: string, uploadTimestamp: string)

  /** `save_data`. `now`/`nowIso` stand for `datetime.now()`, `render` for the
      library writers and `uploadError` for an exception from `put_object`;
      no exception leaves the method. */
  method SaveData(
    bucket: string, data: Value, prefix: string, format: Option<DataFormat>, metadata: seq<Entry>,
    includeTimestamp: bool, folder: Option<string>, now: Clock, nowIso: string, yamlAvailable: bool,
    render: (Writer, Value) -> seq<byte>, uploadError: Option<string>)
    returns (result: SaveResult)
    requires now.Valid()
    ensures var f := ChosenFormat(data, prefix, format);
      var prepared := PrepareData(data, f, yamlAvailable);
      && (result.Failed? <==> prepared.Err? || uploadError.Some?)
      && (prepared.Err? ==> result == Failed(prepared.error, nowIso))
      && (prepared.Ok? && uploadError.Some? ==> result == Failed(uploadError.value, nowIso))
      && (result.Saved? ==>
            && result.key == ObjectKey(prefix, f, includeTimestamp, folder, now)
            && result.bucket == bucket && result.format == f
            && result.recordCount == RecordCount(data)
            && result.fileSize == |Materialize(prepared.value, render)|
            && result.contentType == f.ContentType()
            && result.objectMetadata == WithCallerMetadata(BaseMetadata(data, f, nowIso), metadata))
  {
    var f := ChosenFormat(data, prefix, format);
    var key := ObjectKey(prefix, f, includeTimestamp, folder, now);
    var prepared := PrepareData(data, f, yamlAvailable);
    if prepared.Err? {
      return Failed(prepared.error, nowIso);
    }
    var count := RecordCount(data);
    var meta := BaseMetadata(data, f, nowIso);
    var i := 0;
    while i < |metadata|
      invariant 0 <= i <= |metadata|
      invariant WithCallerMetadata(meta, metadata[i..]) == WithCallerMetadata(BaseMetadata(data, f, nowIso), metadata)
    {
      assert metadata[i..][1..] == metadata[i + 1..];
      meta := Store(meta, metadata[i].key, VStr(Str(metadata[i].val)));
      i := i + 1;
    }
    assert metadata[i..] == [];
    if uploadError.Some? {
      return Failed(uploadError.value, nowIso);
    }
    var body := Materialize(prepared.value, render);
    result := Saved(key, bucket, f, count, |body|, f.ContentType(), meta, nowIso);
  }

  /** An entry of `list_objects_v2`'s `Contents`. */
  datatype StoredObject = StoredObject(key: string, size: nat, lastModified: string, etag: string)

  /** A `list_files` result entry. */
  datatype FileInfo = FileInfo(key: string, size: nat, lastModified: string, etag: string, detectedFormat: Option<string>)

  /** `obj['Key'].split('.')[-1].lower()` when the key has a dot. */
  function DetectedFormat(key: string): Option<string> {
    if '.' in key then
      var parts := Split(key, ".");
      Some(Lower(parts[|parts| - 1]))
    else None
  }

  function Describe(o: StoredObject): FileInfo {
    FileInfo(o.key, o.size, o.lastModified, o.etag, DetectedFormat(o.key))
  }

  predicate Selected(info: FileInfo, filter: Option<DataFormat>) {
    filter.None? || info.detectedFormat == Some(filter.value.Label())
  }

  /** The listing kept by the format filter, in listing order. */
  function Listed(objects: seq<StoredObject>, filter: Option<DataFormat>): (r: seq<FileInfo>)
    ensures |r| <= |objects|
  {
    if objects == [] then []
    else
      var info := Describe(objects[0]);
      (if Selected(info, filter) then [info] else []) + Listed(objects[1..], filter)
  }

  /** `list_files`: `listError` stands for an exception from the S3 client,
      which yields an empty list. */
  method ListFiles(objects: seq<StoredObject>, filter: Option<DataFormat>, listError: Option<string>)
    returns (files: seq<FileInfo>)
    ensures listError.Some? ==> files == []
    ensures listError.None? ==> files == Listed(objects, filter)
  {
    if listError.Some? {
      return [];
    }
    files := [];
    var i := 0;
    while i < |objects|
      invariant 0 <= i <= |objects|
      invariant files + Listed(objects[i..], filter) == Listed(objects, filter)
    {
      var info := Describe(objects[i]);
      ListedStep(objects, filter, i, files);
      if Selected(info, filter) {
        files := files + [info];
      }
      i := i + 1;
    }
    assert objects[i..] == [];
  }

  /** Every listed file passes the filter, and without a filter every object
      is listed, in order. */
  lemma {:induction false} ListedProperties(objects: seq<StoredObject>, filter: Option<DataFormat>)
    ensures forall i :: 0 <= i < |Listed(objects, filter)| ==> Selected(Listed(objects, filter)[i], filter)
    ensures filter.None? ==>
      |Listed(objects, filter)| == |objects| && forall i :: 0 <= i < |objects| ==> Listed(objects, filter)[i] == Describe(objects[i])
  {
    if objects != [] {
      ListedProperties(objects[1..], filter);
    }
  }

  /** One more object adds its description to the files listed so far when it
      passes the filter. */
  lemma ListedStep(objects: seq<StoredObject>, filter: Option<DataFormat>, i: nat, files: seq<FileInfo>)
    requires i < |objects| && files + Listed(objects[i..], filter) == Listed(objects, filter)
    ensures var info := Describe(objects[i]);
      (files + (if Selected(info, filter) then [info] else [])) + Listed(objects[i + 1..], filter) == Listed(objects, filter)
  {
    ListedHead(objects, filter, i);
    var info := Describe(objects[i]);
    Regroup(files, if Selected(info, filter) then [info] else [], Listed(objects[i + 1..], filter));
  }

  /** The listing of a suffix, one object at a time. */
  lemma ListedHead(objects: seq<StoredObject>, filter: Option<DataFormat>, i: nat)
    requires i < |objects|
    ensures var info := Describe(objects[i]);
      Listed(objects[i..], filter) == (if Selected(info, filter) then [info] else []) + Listed(objects[i + 1..], filter)
  {
    assert objects[i..][1..] == objects[i + 1..];
  }

  /** Concatenation regrouped. */
  lemma Regroup<T>(a: seq<T>, b: seq<T>, c: seq<T>)
    ensures a + (b + c) == (a + b) + c
  {
  }

  /** A file kept under a format filter has a key ending in `.` and that
      format's extension, in any letter case. */
  lemma {:induction false} ListedMatchesFilter(objects: seq<StoredObject>, f: DataFormat, i: nat)
    requires i < |Listed(objects, Some(f))|
    ensures var info := Listed(objects, Some(f))[i];
      '.' in info.key && DetectedFormat(info.key) == Some(f.Label())
    decreases |objects|
  {
    var head := Describe(objects[0]);
    if Selected(head, Some(f)) {
      if i > 0 {
        ListedMatchesFilter(objects[1..], f, i - 1);
      }
    } else {
      ListedMatchesFilter(objects[1..], f, i);
    }
  }
}
