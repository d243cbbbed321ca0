/** `save_to_s3` of `app/utils/s3_utils.py`: choose the encoding the format
    name asks for, check the input's type against it, upload, and report
    every failure as `False`. */
module S3Utils {
  import opened Base
  import opened Text
  import opened Json
  import opened Encoding

  /** The five format names `save_to_s3` knows, matched after lower-casing. */
  datatype Format = Csv | JsonText | Parquet | Txt | Binary

  function FormatNamed(fileFormat: string): (r: Option<Format>)
    ensures r == Some(Csv) <==> Lower(fileFormat) == "csv"
    ensures r == Some(JsonText) <==> Lower(fileFormat) == "json"
    ensures r == Some(Parquet) <==> Lower(fileFormat) == "parquet"
    ensures r == Some(Txt) <==> Lower(fileFormat) == "txt"
    ensures r == Some(Binary) <==> Lower(fileFormat) == "binary"
  {
    var name := Lower(fileFormat);
    if name == "csv" then Some(Csv)
    else if name == "json" then Some(JsonText)
    else if name == "parquet" then Some(Parquet)
    else if name == "txt" then Some(Txt)
    else if name == "binary" then Some(Binary)
    else None
  }

  /** What `json.dumps` without `default=` can write: no bytes and no
      DataFrame anywhere inside. */
  predicate JsonSerializable(v: Value) {
    match v
    case VBytes(_) => false
    case VTable(_) => false
    case VList(xs) => forall i :: 0 <= i < |xs| ==> JsonSerializable(xs[i])
    case VDict(entries) => forall i :: 0 <= i < |entries| ==> JsonSerializable(entries[i].val)
    case _ => true
  }

  /** `file_content` for a known format, or the exception its type check or
      its encoder raises. */
  function Content(data: Value, format: Format): (r: Result<Encoded>)
    ensures format in {Csv, Parquet} ==> (r.Ok? <==> data.VTable?)
    ensures format == JsonText ==> (r.Ok? <==> ((data.VDict? || data.VList?) && JsonSerializable(data)) || data.VTable?)
    ensures format == JsonText && (data.VDict? || data.VList?) && JsonSerializable(data) ==>
      r == Ok(Written(StrictJsonDumps(2), data))
    ensures format == Txt ==> r.Ok? && r.value.Bytes?
    ensures format == Txt && data.VStr? ==> r == Ok(Bytes(Utf8(data.s)))
    ensures format == Txt && !data.VStr? ==> r == Ok(Bytes(Utf8(Str(data))))
    ensures format == Binary ==> (r.Ok? <==> data.VBytes?)
    ensures format == Binary && data.VBytes? ==> r == Ok(Bytes(data.bytes))
  {
    match format
    case Csv =>
      if data.VTable? then Ok(Written(PandasCsv(','), data))
      else Err("CSV format requires pandas DataFrame input")
    case JsonText =>
      if data.VDict? || data.VList? then
        if JsonSerializable(data) then Ok(Written(StrictJsonDumps(2), data))
        else Err("Object is not JSON serializable")
      else if data.VTable? then Ok(Written(PandasJson(2), data))
      else Err("JSON format requires dict, list, or DataFrame input")
    case Parquet =>
      if data.VTable? then Ok(Written(PandasParquet, data))
      else Err("Parquet format requires pandas DataFrame input")
    case Txt =>
      if data.VStr? then Ok(Bytes(Utf8(data.s))) else Ok(Bytes(Utf8(Str(data))))
    case Binary =>
      if data.VBytes? then Ok(Bytes(data.bytes))
      else Err("Binary format requires bytes input")
  }

  /** How the client is created: with the given keys when both are non-empty,
      otherwise from the default credential chain. */
  datatype Client = Client(explicitKeys: bool, region: string)

  /** The arguments of `put_object`. */
  datatype Request = Request(client: Client, bucket: string, key: string, body: Encoded)

  /** What `save_to_s3` returns and, when it got that far, what it sent. */
  datatype Attempt = Attempt(succeeded: bool, sent: Option<Request>)

  /** The exceptions boto3 may raise: while creating the client and while
      putting the object. */
  datatype S3Env = S3Env(clientError: Option<string>, putError: Option<string>)

  function ClientFor(accessKeyId: Option<string>, secretAccessKey: Option<string>, region: string): (c: Client)
    ensures c.explicitKeys <==> accessKeyId.Some? && accessKeyId.value != [] && secretAccessKey.Some? && secretAccessKey.value != []
    ensures c.region == region
  {
    Client(accessKeyId.GetOr("") != [] && secretAccessKey.GetOr("") != [], region)
  }

  /** `save_to_s3`: `True` only when the client is created, the format is
      known, the input's type suits it and the upload goes through; every
      exception on the way gives `False`. */
  function SaveToS3(data: Value, fileKey: string, bucketName: string, fileFormat: string,
                    accessKeyId: Option<string>, secretAccessKey: Option<string>, region: string, env: S3Env)
    : (r: Attempt)
    ensures env.clientError.Some? ==> r == Attempt(false, None)
    ensures r.succeeded ==> r.sent.Some? && env.putError.None?
    ensures r.sent.Some? ==>
      && FormatNamed(fileFormat).Some? && Content(data, FormatNamed(fileFormat).value).Ok?
      && r.sent.value == Request(ClientFor(accessKeyId, secretAccessKey, region), bucketName, fileKey,
                                 Content(data, FormatNamed(fileFormat).value).value)
  {
    if env.clientError.Some? then Attempt(false, None)
    else
      match FormatNamed(fileFormat)
      case None => Attempt(false, None)
      case Some(format) =>
        match Content(data, format)
        case Err(_) => Attempt(false, None)
        case Ok(body) =>
          var request := Request(ClientFor(accessKeyId, secretAccessKey, region), bucketName, fileKey, body);
          Attempt(env.putError.None?, Some(request))
  }

  /** The outcome: an upload is attempted exactly when the client exists, the
      format is known and the input suits it; it carries the key, bucket and
      encoding; and the result is `True` exactly when that upload succeeds. */
  lemma SaveOutcome(data: Value, fileKey: string, bucketName: string, fileFormat: string,
                    accessKeyId: Option<string>, secretAccessKey: Option<string>, region: string, env: S3Env)
    ensures var r := SaveToS3(data, fileKey, bucketName, fileFormat, accessKeyId, secretAccessKey, region, env);
      && (r.sent.Some? <==> env.clientError.None? && FormatNamed(fileFormat).Some? && Content(data, FormatNamed(fileFormat).value).Ok?)
      && (r.succeeded <==> r.sent.Some? && env.putError.None?)
      && (r.sent.Some? ==>
            && r.sent.value.key == fileKey && r.sent.value.bucket == bucketName
            && r.sent.value.body == Content(data, FormatNamed(fileFormat).value).value)
  {
  }

  /** An unknown format name gives `False` and sends nothing. */
  lemma UnsupportedFormatFails(data: Value, fileKey: string, bucketName: string, fileFormat: string,
                               accessKeyId: Option<string>, secretAccessKey: Option<string>, region: string, env: S3Env)
    requires Lower(fileFormat) !in ["csv", "json", "parquet", "txt", "binary"]
    ensures SaveToS3(data, fileKey, bucketName, fileFormat, accessKeyId, secretAccessKey, region, env) == Attempt(false, None)
  {
    assert FormatNamed(fileFormat).None?;
  }

  /** Two spellings of the format name that lower-case alike give the same
      outcome. */
  lemma FormatCaseInsensitive(data: Value, fileKey: string, bucketName: string, f: string, g: string,
                              accessKeyId: Option<string>, secretAccessKey: Option<string>, region: string, env: S3Env)
    requires Lower(f) == Lower(g)
    ensures SaveToS3(data, fileKey, bucketName, f, accessKeyId, secretAccessKey, region, env)
         == SaveToS3(data, fileKey, bucketName, g, accessKeyId, secretAccessKey, region, env)
  {
    assert FormatNamed(f) == FormatNamed(g);
  }

  /** `save_dataframe_to_s3`: `save_to_s3` with the frame and the default
      credentials and region. */
  function SaveDataFrameToS3(df: Table, fileKey: string, bucketName: string, fileFormat: string, env: S3Env): (r: Attempt)
    ensures r.succeeded <==>
      env.clientError.None? && env.putError.None? && FormatNamed(fileFormat).Some? && Lower(fileFormat) != "binary"
    ensures r.sent.Some? ==> r.sent.value.client == Client(false, "us-east-1") && r.sent.value.key == fileKey
  {
    SaveToS3(VTable(df), fileKey, bucketName, fileFormat, None, None, "us-east-1", env)
  }

  /** A frame suits every format but `binary`: with a working client it is
      uploaded for `csv`, `json`, `parquet` and `txt`, and refused for
      `binary`. */
  lemma DataFrameFormats(df: Table, fileKey: string, bucketName: string, fileFormat: string, env: S3Env)
    requires env.clientError.None? && FormatNamed(fileFormat).Some?
    ensures SaveDataFrameToS3(df, fileKey, bucketName, fileFormat, env).sent.Some? <==> Lower(fileFormat) != "binary"
    ensures SaveDataFrameToS3(df, fileKey, bucketName, fileFormat, env).sent.Some? ==>
      !SaveDataFrameToS3(df, fileKey, bucketName, fileFormat, env).sent.value.client.explicitKeys
  {
  }
}
