# Energy data pipeline: a verified model of its core rules

The repository collects electricity data from ISO New England and other HTTP
APIs and stores it locally or in S3. Most of it is glue around `requests`,
boto3 and pandas. Under the glue sit the rules this project models and
proves properties of:

- **LMP processing** (`processor.py`): it validates the input, deduplicates
  and sorts it, and classifies the calendar fields. It computes hourly group
  statistics joined back onto every row, congestion levels, loss
  percentages and completeness, and validates the output. It also picks the
  price-anomaly method.
- **Storage bookkeeping** (`persistence.py`, `s3_utils.py`): extension and
  content sniffing, encoder dispatch and record counting; the dict/list to
  XML tree conversion; object keys and metadata; the "never raises" error
  boundaries; and the listing filter.
- **API collection** (`collector.py` and its older copy
  `download_to_file.py`): URL placeholder substitution, header redaction,
  recursive JSON flattening, file-type detection, file naming, the
  table-shaping rule before CSV/TSV output, and result accumulation over
  the configured APIs.
- **Raw record parsing** (`allinone.py`, `fetch_data_lambda.py`): walking
  the `GenMixes`/`GenMixs` and `HourlyLoadForecasts`/`HourlyLoadForecast`
  structures into flat records (MW to kW), cleaning, deduplication, and
  the processed/error counters; the lambda's object key and status codes.
- **Pipeline statistics** (`energy_pipeline_integration.py`): the per-run
  counters, a class whose methods reset and update them; summary rates
  guarded against division by zero; configuration validation.
- **Duplicate finding** (`algorithm_demo.py`): the quadratic, linear and
  counter-based versions, proved to agree.

The model has one module per source file: `Processor`, `Persistence`,
`S3Utils`, `Collector`, `LegacyCollector`, `Feeds` and `EnergyData`/`IsoNeClient`
(for `allinone.py`), `IngestionLambda`, `PipelineIntegration` and
`Duplicates`. Beside them sit the modules for the Python objects the code
handles:

- `Json`: decoded JSON, bytes and DataFrames as one `Value` datatype, a
  dict as an ordered sequence of entries, and `in`, `[]`, `get`, `float()`
  and `str()`.
- `Text`: string operations.
- `Calendar`: wall-clock and timestamp readings, and the `strftime` layouts.
- `Tables`: pandas' `drop_duplicates(keep='first')` and `sort_values`.
- `Xml`: the ElementTree conversion, with `Element` as a class the
  conversion fills in place.
- `Encoding`: UTF-8 and the library writers.
- `Base`: `Option`, `Result` and list comprehensions.

Imperative code stays imperative. Loops that append or rebind are methods
with loop invariants, proved equal to a specification function. The
element tree and the pipeline counters are classes with `modifies` frames.
A Python exception is an `Err` carrying its message. The clock, uuids,
HTTP calls, S3 and file writes, and the library encoders' bytes are
parameters.

## Model

| member | source | states |
|---|---|---|
| Duplicates.FindDuplicatesQuadratic | project_files/source/app/algorithm_demo.py:5-22 | the nested loops return exactly `QuadraticDuplicates(data)`: after outer round `i` the list holds the values whose first occurrence is before `i` and that occur again later |
| Duplicates.QuadraticUpToMembers | project_files/source/app/algorithm_demo.py:16-20 | after `n` outer rounds a value is listed iff it occurs in the first `n` positions and occurs twice in the input |
| Duplicates.QuadraticFindsRepeated | project_files/source/app/algorithm_demo.py:5-22 | a value is in the quadratic result iff it sits at two different positions |
| Duplicates.QuadraticHasNoRepeats | project_files/source/app/algorithm_demo.py:19-20 | the `not in duplicates` guard keeps every value listed at most once |
| Duplicates.QuadraticInFirstOccurrenceOrder | project_files/source/app/algorithm_demo.py:16-20 | every listed value occurs in the input, and the values are listed in the order of their first occurrence |
| Duplicates.RepeatedStep | project_files/source/app/algorithm_demo.py:36-40 | one more item is repeated in the longer prefix iff it was already seen; no other value changes status |
| Duplicates.FindDuplicatesLinear | project_files/source/app/algorithm_demo.py:25-42 | the single pass with `seen` returns each repeated value exactly once: its members are exactly the values `Counter` counts more than once |
| Duplicates.ListOf | project_files/source/app/algorithm_demo.py:42 | `list(duplicates)` holds every member of the set, once each |
| Duplicates.RepeatedIffCounted | project_files/source/app/algorithm_demo.py:53-55 | `Counter(data)[x] > 1` iff `x` sits at two different positions |
| Duplicates.OptimizedFindsRepeated | project_files/source/app/algorithm_demo.py:45-55 | the comprehension over the counter holds exactly the repeated values |
| Duplicates.BenchmarkRound | project_files/source/app/algorithm_demo.py:74-84 | the benchmark's `assert set(result_quad) == set(result_linear)` holds on every input |
| Duplicates.AllThreeAgree | project_files/source/app/algorithm_demo.py:5-55 | the three functions find the same set of values, the repeated ones |
| IsoNeClient.ParseGenerationData | backend/app/allinone.py:92-114 | the nested loops return exactly `Records(GenerationMix, data)`: one record per `GenMixs` entry of every `GenMixes` group, in order, or the error of the first entry that raises |
| IsoNeClient.ParseLoadData | backend/app/allinone.py:116-138 | the same for `HourlyLoadForecast` entries of the `HourlyLoadForecasts` groups |
| IsoNeClient.ReadersLabelTheirRecords | backend/app/allinone.py:101-130 | every record has four columns, and its `Source` is `generation_mix` or `load_forecast` according to the reader |
| EnergyData.ParseDateTime | backend/app/allinone.py:200-204| a row is kept iff it has a `DateTime` cell that `to_datetime` parses; the kept row is unchanged and carries exactly the parsed instant |
| EnergyData.ParseKwh | backend/app/allinone.py:220-227| a dated row is kept iff its `kWh` cell is numeric; the reading keeps the row's instant and cells and holds `round(1)` of the parsed number |
| EnergyData.RemoveDuplicates | backend/app/allinone.py:239-252 | `drop_duplicates` keeps no more rows than it is given, only rows it was given, and no two with the same `(DateTime, kWh)` |
| EnergyData.ClassifyTimePeriod | backend/app/allinone.py:281-288 | `Day` iff 6 <= hour < 18, `Evening` iff 18 <= hour < 22, `Night` iff hour < 6 or hour >= 22 |
| EnergyData.Derive | backend/app/allinone.py:258-273 | the derived columns of one reading: `Date`, `Hour`, `DayOfWeek`, `Month` and `Year` from its instant, `IsWeekend` iff the day of the week is 5 or 6, `TimePeriod` from the hour, `ProcessedAt` the clock |
| EnergyData.AddDerivedFields | backend/app/allinone.py:258-273 | one processed row per reading, in order, each derived from its own reading |
| EnergyData.CleaningOnlyDrops | backend/app/allinone.py:196-237 | the two conversions only drop rows: a reading survives iff it comes from a raw record whose timestamp parses and whose `kWh` is numeric |
| EnergyData.DuplicatesRemoved | backend/app/allinone.py:239-252 | after `drop_duplicates` no two readings share a `(DateTime, kWh)` pair, each kept reading is the first of its pair, every pair survives, and nothing is added |
| EnergyData.TransformShrinks | backend/app/allinone.py:172-179| the transformed frame has no more rows than the raw records, no repeated `(DateTime, kWh)` pair, and every reading comes from a raw record whose `DateTime` parses and whose `kWh` is numeric |
| EnergyData.Transform | backend/app/allinone.py:172-179 | the steps fail exactly when no record has `DateTime` (`KeyError` on it first) or none has `kWh`; every transformed row carries the given processing time |
| EnergyData.MissingDateTimeColumn | backend/app/allinone.py:200 | records that all lack `DateTime` fail with `KeyError('DateTime')` |
| EnergyData.AsWrittenFinish | backend/app/allinone.py:180-181 | with the class completed as described under Left out, the missing `_sort_data` makes the last step raise `AttributeError` for every input |
| EnergyData.AsWrittenEveryInputFails | backend/app/allinone.py:157-194 | read as written, every non-empty input ends in an error |
| EnergyData.EnergyDataProcessor.constructor | backend/app/allinone.py:153-155 | both counters start at zero |
| EnergyData.EnergyDataProcessor.ProcessEnergyData | backend/app/allinone.py:157-194 | an empty input gives `[]` and leaves the counters alone; otherwise the result of the steps, with `processed_count` set to the row count on success and `error_count` raised by one on failure |
| Feeds.RecordOf | backend/app/allinone.py:101-106 | an entry gives a record iff it is a dict whose megawatts `float()` accepts; the record is `DateTime` (the `BeginDate`, else `''`), `kWh` (megawatts times 1000), then the reader's own columns |
| Feeds.Members | backend/app/allinone.py:97-100 | `for x in container[key]` under `if key in container`: nothing when the key is absent, the stored list when it is present |
| Feeds.ReadGroup | backend/app/allinone.py:99-107 | the inner loop returns exactly the group's records (`GroupRecords`), or the error of the first entry that raises |
| Feeds.ParseRecords | backend/app/allinone.py:94-114 | the outer loop returns exactly `Records(feed, data)`, group after group, or the first group's error |
| Feeds.GroupsRecordsStep | backend/app/allinone.py:98-107 | one more group extends the records read so far with that group's records, or fails with its error |
| Feeds.GroupErrorStays | backend/app/allinone.py:112-114 | once a group raises, the whole reader raises the same error |
| Feeds.OneRecordPerEntry | backend/app/allinone.py:100-107 | a group's entries give one record each, in order, each the entry's own record, and fail exactly when one entry does |
| Feeds.GroupsRecordsFromEntries | backend/app/allinone.py:97-107 | every record read from a list of groups is the record of some entry |
| Feeds.RecordsComeFromEntries | backend/app/allinone.py:92-114 | every record a reader returns is the record of some entry of the response |
| Feeds.RecordColumns | backend/app/allinone.py:101-106 | a record's columns are `DateTime`, `kWh`, `FuelType`, `Source` (only the first two for the lambda's loop) |
| Feeds.RecordKeysDistinct | backend/app/allinone.py:101-106 | every record is a proper dict: no column name twice |
| Feeds.KilowattsOfMegawatts | backend/app/allinone.py:103 | `kWh` is the entry's megawatts times 1000 |
| Feeds.MissingMegawattsAreZero | backend/app/allinone.py:103 | an entry without megawatts gives `kWh` 0, not an error |
| Feeds.RecordDateTime | backend/app/allinone.py:102 | `DateTime` is the entry's `BeginDate`, or `''` when it has none |
| Feeds.UnknownFuel | backend/app/allinone.py:104-105 | a generation entry without `FuelCategory` is of fuel `Unknown`, source `generation_mix` |
| Feeds.LoadForecastLabels | backend/app/allinone.py:128-129 | a load-forecast record is labelled `Load_Forecast` from `load_forecast` |
| Feeds.NonDictEntryFails | backend/app/allinone.py:100-114 | an entry that is not a dict makes the reader raise |
| Feeds.MissingOuterKeyGivesNothing | backend/app/allinone.py:97 | a response without the outer key gives no records |
| Feeds.MissingInnerKeyContributesNothing | backend/app/allinone.py:99 | a group without the inner key contributes nothing |
| IngestionLambda.ExtractEnergyData | project_files/source/data_ingestion/lambda/fetch_data_lambda.py:68-113 | the request's error, or the generation loop's records (`DateTime` and `kWh` per `GenMixs` entry, in order) |
| IngestionLambda.ExtractedRecordsHaveTwoColumns | project_files/source/data_ingestion/lambda/fetch_data_lambda.py:99-102 | every extracted record has exactly the columns `DateTime` and `kWh` |
| IngestionLambda.TransformData | project_files/source/data_ingestion/lambda/fetch_data_lambda.py:115-143 | no records give `[]` |
| IngestionLambda.TransformedRowsSortedAndDistinct | project_files/source/data_ingestion/lambda/fetch_data_lambda.py:127-136| the transformed rows are sorted by `DateTime`, hold no row twice, are no more than the records, hold every converted record, and each is the conversion of some record |
| IngestionLambda.NaTRowsSortLast | project_files/source/data_ingestion/lambda/fetch_data_lambda.py:100-133 | a record whose `DateTime` is NaT (the `''` of a missing `BeginDate`) is kept, and every NaT row comes after every row with a timestamp |
| IngestionLambda.StoreKey | project_files/source/data_ingestion/lambda/fetch_data_lambda.py:156-157 | the key is `energy-data/`, the 17-character `%Y/%m/%d/%H%M%S` stamp, then `/energy_data.csv`: 45 characters |
| IngestionLambda.LambdaHandler | project_files/source/data_ingestion/lambda/fetch_data_lambda.py:22-66 | the handler's answer is `Handle(env, convert)`: 200 with nothing stored when nothing was extracted, 500 on any exception, otherwise 200 with the row count and the key |
| IngestionLambda.Handle | project_files/source/data_ingestion/lambda/fetch_data_lambda.py:22-66 | the answer is 200 or 500; a stored object means 200, the key built from the clock, the configured bucket, and a body counting the stored rows; 200 without storing means "No data to process" |
| IngestionLambda.StatusReflectsOutcome | project_files/source/data_ingestion/lambda/fetch_data_lambda.py:37-66 | the status is 200 or 500; 500 exactly when extraction, transformation or the upload failed; something is stored exactly on a 200 with records; a 500 body starts with `Error: ` |
| IngestionLambda.NoGroupsNoUpload | project_files/source/data_ingestion/lambda/fetch_data_lambda.py:95 | a response without `GenMixes` answers "No data to process" and stores nothing |
| IngestionLambda.StoredObject | project_files/source/data_ingestion/lambda/fetch_data_lambda.py:145-168 | what is stored is sorted and free of repeats, keyed under `energy-data/`, in `s3-for-energy` unless `S3_BUCKET_NAME` is set |
| S3Utils.FormatNamed | project_files/source/app/utils/s3_utils.py:75-111 | the format is chosen by `file_format.lower()`: each of the five names selects its format, and no other name selects any |
| S3Utils.Content | project_files/source/app/utils/s3_utils.py:74-109| csv and parquet need a DataFrame; json takes a DataFrame, or a dict or list only when plain `json.dumps` can serialise it (no bytes inside), and is then exactly that dump; txt takes anything: UTF-8 of a string itself, otherwise UTF-8 of its `str()`; binary passes bytes through and refuses everything else |
| S3Utils.ClientFor | project_files/source/app/utils/s3_utils.py:62-72 | explicit keys are used iff both are given and non-empty; the region is passed on |
| S3Utils.SaveOutcome | project_files/source/app/utils/s3_utils.py:61-131 | an upload is sent exactly when the client exists, the format is known and the input suits it; it carries the key, the bucket and the encoded body; the result is `True` exactly when that upload goes through |
| S3Utils.SaveToS3 | project_files/source/app/utils/s3_utils.py:14-131 | a client error sends nothing and returns `False`; `True` only when a request was sent and the put succeeded; a sent request holds the client for the credentials, the bucket, the key and the body `Content` gives for the named format |
| S3Utils.UnsupportedFormatFails | project_files/source/app/utils/s3_utils.py:110-111 | an unknown format name gives `False` and sends nothing |
| S3Utils.FormatCaseInsensitive | project_files/source/app/utils/s3_utils.py:75-105 | two spellings that lower-case alike give the same outcome |
| S3Utils.DataFrameFormats | project_files/source/app/utils/s3_utils.py:134-157 | with a working client a frame is uploaded for every known format except `binary`, always with the default credentials |
| S3Utils.SaveDataFrameToS3 | project_files/source/app/utils/s3_utils.py:134-157 | a frame upload succeeds iff the client works, the put succeeds and the format is known and not `binary`; it always uses the default credentials and region and the given key |
| LegacyCollector.ResponseData | backend/app/download_to_file.py:273-278 | a JSON body is returned as decoded; any other body becomes `{'raw_response': text}` |
| LegacyCollector.TextBodyIsOneRawResponseRow | backend/app/download_to_file.py:393-406 | a non-JSON body is saved as one row with a `raw_response` column, where the newer collector uses a `value` column |
| LegacyCollector.CsvPrefix | backend/app/download_to_file.py:388 | `api_config.get('csv_prefix', 'data')`: the configured prefix when present, `data` otherwise |
| LegacyCollector.CsvFileName | backend/app/download_to_file.py:386-389| the name is the prefix, `_`, a 15-character stamp that parses back to the clock reading (microseconds dropped), `_`, the first eight characters of the uuid, and `.csv` |
| LegacyCollector.FileNamesAgreeWithoutFilePrefix | backend/app/download_to_file.py:389 | without a `file_prefix` key the newer collector names a CSV file exactly as this one does |
| LegacyCollector.SaveToCsv | backend/app/download_to_file.py:370-417 | the save succeeds iff `output_folder` is configured as a string, `name` is configured and the write goes through; a missing `output_folder` raises `KeyError`; the path lies in the joined output folder and ends in the file name; the rows are the collector's shaped rows with the metadata columns |
| LegacyCollector.SavedRowsNameTheApi | backend/app/download_to_file.py:408-411 | every saved row carries the API's `name` and the eight-character unique id |
| LegacyCollector.RunOne | backend/app/download_to_file.py:428-451 | one result per API named by `get('name', 'unnamed_api')`: success with the CSV path exactly when the call and the save succeed, a failure with the error text otherwise |
| LegacyCollector.RunAllApis | backend/app/download_to_file.py:419-453 | one result per configured API, in order, each the outcome of that API |
| LegacyCollector.MissingFolderFails | backend/app/download_to_file.py:382 | a configuration without `output_folder` fails with the `KeyError` text even when the call succeeds |
| LegacyCollector.RunSingleApi | backend/app/download_to_file.py:455-496 | `ValueError` exactly when no configuration has the name; otherwise the outcome for the first configuration with that name, reported under that name |
| PipelineIntegration.FirstNamedIsFirst | project_files/source/app/integration/energy_pipeline_integration.py:109-114 | the lookup finds nothing exactly when no configuration has the name, and otherwise the configuration at the first position that has it |
| PipelineIntegration.FindApiConfig | project_files/source/app/integration/energy_pipeline_integration.py:109-114 | the loop returns the first configuration whose `name` matches, or `None` |
| PipelineIntegration.FallbackConfig | project_files/source/app/integration/energy_pipeline_integration.py:140-146 | a configuration is made up exactly when the API name is a string (any other name has no `lower` and raises) |
| PipelineIntegration.FallbackConfigFields | project_files/source/app/integration/energy_pipeline_integration.py:142-146 | the made-up configuration has the API's name, the lower-cased name with `_` for spaces as folder, and the prefix `data` |
| PipelineIntegration.FallbackFolderIsPlain | project_files/source/app/integration/energy_pipeline_integration.py:144 | the made-up folder has the name's length and holds no space and no upper-case letter |
| PipelineIntegration.OutcomeStages | project_files/source/app/integration/energy_pipeline_integration.py:116-190 | a result is skipped exactly when its collection failed; the upload succeeds exactly when a configuration was found or made up and the storage layer saved the object, which the entry then carries |
| PipelineIntegration.ResultEntry | project_files/source/app/integration/energy_pipeline_integration.py:126-190 | the entry for one collector result is `SingleOutcome`: skipped after a failed collection, otherwise the upload's success or failure, exceptions included |
| PipelineIntegration.Outcomes | project_files/source/app/integration/energy_pipeline_integration.py:217-227 | one pipeline result per collector result |
| PipelineIntegration.OutcomesEach | project_files/source/app/integration/energy_pipeline_integration.py:226-227 | the i-th pipeline result is the outcome of the i-th collector result |
| PipelineIntegration.OutcomesStep | project_files/source/app/integration/energy_pipeline_integration.py:218-227 | one more collector result appends exactly its outcome |
| PipelineIntegration.UploadCount | project_files/source/app/integration/energy_pipeline_integration.py:309 | no more results are counted than there are |
| PipelineIntegration.UploadCountStep | project_files/source/app/integration/energy_pipeline_integration.py:309 | one more result is counted under its own upload status |
| PipelineIntegration.UploadCountsPartition | project_files/source/app/integration/energy_pipeline_integration.py:116-227 | every result is skipped, uploaded or failed: the uploaded and failed ones are the collected ones, the skipped ones the rest |
| PipelineIntegration.Ratio | project_files/source/app/integration/energy_pipeline_integration.py:244-245 | the rate times the whole is the part, and a part of the whole is a fraction between 0 and 1 |
| PipelineIntegration.SummaryOf | project_files/source/app/integration/energy_pipeline_integration.py:241-246 | the summary reports the totals, the collection rate over at least one API, and the upload rate over the collected results or 0 without any; both are fractions when the counts are consistent |
| PipelineIntegration.TallyStep | project_files/source/app/integration/energy_pipeline_integration.py:218-227 | one more result updates the counters by exactly that result |
| PipelineIntegration.TallyCounts | project_files/source/app/integration/energy_pipeline_integration.py:203-227 | after a full run the collection counters split the results, the upload counters count the outcomes by status, and together they split the collected results |
| PipelineIntegration.CompletedRatesAreFractions | project_files/source/app/integration/energy_pipeline_integration.py:244-245 | with at most one collector result per API, both rates of a completed run lie between 0 and 1 |
| PipelineIntegration.SingleRun | project_files/source/app/integration/energy_pipeline_integration.py:260-290 | a collector exception fails both stages under the requested name; otherwise the result is processed as in a full run |
| PipelineIntegration.SelectedRunsStep | project_files/source/app/integration/energy_pipeline_integration.py:305-307 | one more name appends exactly its single run |
| PipelineIntegration.SelectedTallyCounts | project_files/source/app/integration/energy_pipeline_integration.py:260-307 | a selective run leaves the API total and both collection counters unchanged and adds one successful upload per uploaded entry |
| PipelineIntegration.SelectedTallyFailures | project_files/source/app/integration/energy_pipeline_integration.py:260-307 | failed uploads rise by at most the failed entries and by exactly that many when no collector raised; a raised collector is reported but not counted |
| PipelineIntegration.MissingLines | project_files/source/app/integration/energy_pipeline_integration.py:338-347 | no more lines than fields |
| PipelineIntegration.CheckFields | project_files/source/app/integration/energy_pipeline_integration.py:338-347 | the inner loop returns one line per field the configuration lacks, in the order of the fields |
| PipelineIntegration.NoMissingLines | project_files/source/app/integration/energy_pipeline_integration.py:338-341 | no line exactly when the configuration has every field |
| PipelineIntegration.MissingLinesStep | project_files/source/app/integration/energy_pipeline_integration.py:338-341 | one more field adds a line exactly when it is missing |
| PipelineIntegration.FindingsStep | project_files/source/app/integration/energy_pipeline_integration.py:336-347 | one more API appends exactly its own lines |
| PipelineIntegration.NoFindings | project_files/source/app/integration/energy_pipeline_integration.py:336-341 | no issue line exactly when every configuration has every required field |
| PipelineIntegration.ValidIffComplete | project_files/source/app/integration/energy_pipeline_integration.py:321-360 | the configuration is valid exactly when every API has `name`, `url` and `output_folder` and the bucket is reachable, that is exactly when there is no issue; missing recommended fields only warn |
| PipelineIntegration.Pipeline.constructor | project_files/source/app/integration/energy_pipeline_integration.py:74-83 | the counters start at zero |
| PipelineIntegration.Pipeline.ProcessSingleResult | project_files/source/app/integration/energy_pipeline_integration.py:116-190 | returns the entry for the result; a skipped result changes no counter, otherwise exactly one of `successful_uploads` and `failed_uploads` goes up |
| PipelineIntegration.Pipeline.CountAndProcess | project_files/source/app/integration/energy_pipeline_integration.py:218-227 | the loop body counts the collection as successful or failed, then processes the result |
| PipelineIntegration.Pipeline.RunFullPipeline | project_files/source/app/integration/energy_pipeline_integration.py:192-258 | the counters are reset; a collector exception aborts with the reset counters; otherwise the counters are the tally of the results and the run returns one entry per result and the summary of the counters |
| PipelineIntegration.Pipeline.RunSingleApiPipeline | project_files/source/app/integration/energy_pipeline_integration.py:260-290 | the single run's entry; a collector exception changes no counter, otherwise the upload counters move as for one processed result |
| PipelineIntegration.Pipeline.RunSelectivePipeline | project_files/source/app/integration/energy_pipeline_integration.py:292-319| one entry per requested name, in order; the count of uploaded entries; the rate is that count over the names, 0 without names, and a fraction; the counters become `SelectedTally` of the old ones (see the two lemmas below) |
| PipelineIntegration.Pipeline.ValidateConfiguration | project_files/source/app/integration/energy_pipeline_integration.py:321-360 | the loops produce exactly the issue and warning lines of `Validated`, and the flag is false exactly when there is an issue |
| Processor.MissingColumns | project_files/source/app/data_processing/processor.py:139 | a required column is reported missing iff no row carries it; never more names than were required |
| Processor.NullCount | project_files/source/app/data_processing/processor.py:145 | the null count of a column is zero iff no row has it missing or `None`, and never exceeds the row count |
| Processor.ValidateInput | project_files/source/app/data_processing/processor.py:123-159| `False` iff a required column is missing or a critical cell (`timestamp`, `location_id`, `lmp_total`) is null; otherwise `True` iff every `lmp_total` is a number, and the `TypeError` of `between` on the first non-number otherwise; the price range itself is not part of the verdict |
| Processor.LmpOutliers | project_files/source/app/data_processing/processor.py:151-157 | the outlier count (prices outside [-1000, 1000]) is at most the row count; it is only logged |
| Processor.ValidateIgnoresPriceRange | project_files/source/app/data_processing/processor.py:151-159| replacing one row's numeric `lmp_total` with any other number, in or out of range, leaves the result unchanged |
| Processor.Coerce | project_files/source/app/data_processing/processor.py:192-200 | `to_numeric(errors='coerce')` then `fillna(0)`: integers and floats keep their value, a numeric string parses, anything else becomes 0 |
| Processor.ParseTimes | project_files/source/app/data_processing/processor.py:174 | a successful parse keeps every row, in order, beside its timestamp |
| Processor.ParsedFirst | project_files/source/app/data_processing/processor.py:171-174 | a frame without `timestamp` fails with `KeyError` before anything else; otherwise the result is that of parsing the column |
| Processor.ToRecord | project_files/source/app/data_processing/processor.py:186-200 | the record keeps the parsed instant; a string `location_id` or `location_name` is stripped, any other cell gives `""` or none; each numeric column is `to_numeric` with 0 for a missing column or an unparseable cell |
| Processor.CleanPrecheck | project_files/source/app/data_processing/processor.py:185-189 | after the timestamps, cleaning fails exactly when `location_id` or `location_name` is missing (`KeyError` naming it), when `.str` refuses either column because its non-null cells are all numbers or all booleans, or when a numeric column is missing |
| Processor.CleanAsWritten | project_files/source/app/data_processing/processor.py:171-202 | `_clean_data` as written (dedup and sort on the raw ids, strip afterwards) never yields more rows than it was given |
| Processor.DedupSortRawIds | project_files/source/app/data_processing/processor.py:178-189 | dedup and sort on the unstripped `location_id` never yields more rows than it was given |
| Processor.RawCell | project_files/source/app/data_processing/processor.py:178 | the `location_id` cell `drop_duplicates` compares: null exactly when missing or `None`, otherwise the cell itself, string or not |
| Processor.RawDedupKeepsDistinctCells | project_files/source/app/data_processing/processor.py:178 | two rows at one instant whose raw `location_id` cells differ both survive the dedup, whatever their types |
| Processor.DedupSortStrippedIds | project_files/source/app/data_processing/processor.py:178-189 | dedup and sort on the stripped `location_id` never yields more rows than it was given |
| Processor.Clean | project_files/source/app/data_processing/processor.py:171-202 | the corrected cleaning never yields more rows than it was given |
| Processor.DedupSortStrippedProperties | project_files/source/app/data_processing/processor.py:178-185 | cleaned rows have distinct (timestamp, location) keys, are sorted by them, and are a sub-multiset of the input rows |
| Processor.DedupSortStrippedKeepsEvery | project_files/source/app/data_processing/processor.py:178 | every (timestamp, location) key of the input survives deduplication |
| Processor.DedupSortStrippedKeepsFirst | project_files/source/app/data_processing/processor.py:178 | `keep='first'`: the row kept for each key is the first input row with that key |
| Processor.CleanIsDedupSort | project_files/source/app/data_processing/processor.py:171-202 | a successful clean parses every row and is exactly the stripped dedup-and-sort of the parsed rows |
| Processor.RawIdDedupKeepsStrippedDuplicates | project_files/source/app/data_processing/processor.py:178-189 | rows `"A"` and `"A "` at one timestamp both survive the code as written and end with the same key; the corrected order keeps one |
| Processor.Season | project_files/source/app/data_processing/processor.py:236-241 | months 1 to 12 map to Winter (Dec to Feb), Spring, Summer, Fall; any other month maps to NaN |
| Processor.TimePeriod | project_files/source/app/data_processing/processor.py:244-246 | a weekend is `Weekend`, else a peak hour is `Peak`, else `Off-Peak`, each iff its condition holds |
| Processor.AddTimeFieldsTo | project_files/source/app/data_processing/processor.py:214-248 | weekend iff day 5 or 6, peak iff hour 7 to 22, business iff hour 9 to 17 (so business implies peak), the season of the month (none outside 1 to 12), and the time period follows the flags |
| Processor.AddTimeFields | project_files/source/app/data_processing/processor.py:204-248 | every row gets its time fields, one output row per input row, in order |
| Processor.Group | project_files/source/app/data_processing/processor.py:266 | a group holds exactly the rows with that (location, hour) key |
| Processor.StatsOf | project_files/source/app/data_processing/processor.py:266-268 | a group's count is its size, its min and max are members bounding every value, and the mean lies between them |
| Processor.MeanBetween | project_files/source/app/data_processing/processor.py:267 | the mean of values lying within bounds lies within the same bounds |
| Processor.HourlyAverages | project_files/source/app/data_processing/processor.py:274-279 | the left merge gives each row the statistics of its own (location, hour) group, one row per input row |
| Processor.HourlyGroupProperties | project_files/source/app/data_processing/processor.py:266-279 | two rows of one group carry the same statistics; the count is the group size, and min and max bound the row's own value and every member's |
| Processor.HourGroupSharesPeriod | project_files/source/app/data_processing/processor.py:218-246 | rows of one (location, hour) group share peak, business-hour and time-period flags |
| Processor.CongestionLevel | project_files/source/app/data_processing/processor.py:308-312 | `pd.cut` with bins (-inf, 0], (0, 5], (5, 15], (15, inf): each level iff the component lies in its bin |
| Processor.CongestionLevelMonotone | project_files/source/app/data_processing/processor.py:308-312 | a larger congestion component never gets a lower level |
| Processor.Divide | project_files/source/app/data_processing/processor.py:315 | division by non-zero is exact; by zero it is NaN iff the dividend is zero |
| Processor.Clip | project_files/source/app/data_processing/processor.py:316 | `clip(0, 100)` yields a value in [0, 100], keeps one already there, and leaves NaN as NaN |
| Processor.LossPercentage | project_files/source/app/data_processing/processor.py:315-316 | the loss share lies in [0, 100]; it is NaN iff loss and price are both zero, the exact share when that is in range, and 100 for a positive loss over a zero price |
| Processor.CompletenessProperties | project_files/source/app/data_processing/processor.py:327-328 | completeness is 25 per interval; an hour is complete iff it has four intervals, and completeness exceeds 100 only for more than four |
| Processor.DeriveRow | project_files/source/app/data_processing/processor.py:300-334| volatility is the hourly std or 0; high volatility iff above the quantile; congestion iff above 1 and then never level None; the congestion level and loss percentage of the row's own readings; completeness is count times 25 and complete iff four intervals; the given processing time; version `1.0` |
| Processor.AddDerivedFields | project_files/source/app/data_processing/processor.py:290-334 | every row gets its derived fields, one output row per input row, in order |
| Processor.HourlyColumnNames | project_files/source/app/data_processing/processor.py:271 | five statistic columns per averaged column, the first of each five being `<col>_mean_hourly` |
| Processor.ValidateProcessed | project_files/source/app/data_processing/processor.py:336-368 | processed data passes iff both hourly mean columns are present; low completeness and few records are only logged |
| Processor.ProcessedColumnsValid | project_files/source/app/data_processing/processor.py:347-351 | the columns the pipeline produces always pass the processed-data check |
| Processor.ProcessRawData | project_files/source/app/data_processing/processor.py:78-121| empty input or input with a missing column or null critical cell gives an empty frame; a non-numeric price raises; valid input succeeds iff cleaning does; a non-empty result means the input was valid and cleaned; never more rows than the input |
| Processor.ProcessRawDataRows | project_files/source/app/data_processing/processor.py:96-118 | for valid input that cleans, the result has one row per cleaned row, carrying that row's time fields, and the cleaned rows are deduplicated and sorted |
| Processor.EnrichedRows | project_files/source/app/data_processing/processor.py:104-113 | time fields, hourly averages and derived fields keep one row per cleaned row, each carrying its own time fields |
| Processor.DetectPriceAnomalies | project_files/source/app/data_processing/processor.py:526-561 | known methods give one flag per price, any other a `ValueError` naming it; `iqr` flags iff outside the fences, `zscore` iff the deviation exceeds threshold times std |
| Processor.ZScoreScaled | project_files/source/app/data_processing/processor.py:551-552 | comparing the scaled deviation with the threshold is the same as comparing the deviation with threshold times spread |
| Persistence.DetectFormatFromExtension | project_files/source/app/data_persisting/persistence.py:187-218 | a format is detected iff the lower-cased text after the last dot is one of the eleven known extensions, and only for a path that has a dot |
| Persistence.KnownExtensionPlain | project_files/source/app/data_persisting/persistence.py:204-216 | every extension the mapping knows is lower-case and dot-free, so it survives `lower().split('.')[-1]` |
| Persistence.ExtensionDetected | project_files/source/app/data_persisting/persistence.py:201-218 | a path ending in a dot and a known extension is detected as that extension's format, whatever the stem |
| Persistence.FormatExtensionRoundTrip | project_files/source/app/data_persisting/persistence.py:20-30 | naming a file with a format's own value as extension detects that format back |
| Persistence.LabelMapped | project_files/source/app/data_persisting/persistence.py:204-216 | every format's value is a key of the extension mapping and maps back to that format |
| Persistence.DetectIgnoresCase | project_files/source/app/data_persisting/persistence.py:201 | lower-casing a path does not change the detected format |
| Persistence.DotKept | project_files/source/app/data_persisting/persistence.py:201 | lower-casing a path neither adds nor removes a dot |
| Persistence.SniffText | project_files/source/app/data_persisting/persistence.py:169-181| text is XML iff, stripped and lower-cased, it starts with `<?xml` or is wrapped in `<` `>`; HTML iff not XML and it starts with `<!doctype html` or holds `<html` anywhere; then TSV iff it has a tab and a newline, CSV iff a comma and a newline and not TSV, and TXT in every other case |
| Persistence.HtmlDocumentSniffedAsXml | project_files/source/app/data_persisting/persistence.py:172-175 | an HTML document wrapped in `<html ... >` is classified XML: the XML test comes first |
| Persistence.AutoDetectFormat | project_files/source/app/data_persisting/persistence.py:147-185 | a known extension in the prefix wins; otherwise a DataFrame is CSV, a dict or list JSON, a string is sniffed, bytes are BINARY, anything else TXT |
| Persistence.RecordCount | project_files/source/app/data_persisting/persistence.py:492-503| a DataFrame or list counts its length, a dict counts one; an empty string counts 0 and any other string its newlines plus one; every other value counts one |
| Persistence.RecordCountIsLines | project_files/source/app/data_persisting/persistence.py:500-501 | a non-empty string counts its lines, one more than its newlines |
| Persistence.PrepareBinary | project_files/source/app/data_persisting/persistence.py:342-347| bytes are kept unchanged; a string is UTF-8 encoded; any other value is the UTF-8 of its `str()` |
| Persistence.PrepareJson | project_files/source/app/data_persisting/persistence.py:255-263 | written with `json.dumps(indent=2, default=str)`; a DataFrame becomes a list of one dict per row, anything else is dumped as it is |
| Persistence.PrepareTxt | project_files/source/app/data_persisting/persistence.py:265-273 | a DataFrame is written as tab-separated CSV; anything else is the UTF-8 of its `str()`, a string that of itself |
| Persistence.PrepareData | project_files/source/app/data_persisting/persistence.py:365-393 | preparation fails exactly for CSV or Parquet of a non-DataFrame; BINARY, TXT, XML and HTML strings, XML trees and YAML without the library take their documented paths |
| Persistence.XmlTreeTagsSafe | project_files/source/app/data_persisting/persistence.py:349-363 | the XML tree built from a dict or list uses only sanitised tags (no space, no hyphen) |
| Persistence.FileName | project_files/source/app/data_persisting/persistence.py:422-426| with a timestamp the name is exactly prefix, `_`, the compact stamp (which parses back to the clock reading without microseconds), `.` and the format value; without it, exactly prefix, dot, format value |
| Persistence.Dotted | project_files/source/app/data_persisting/persistence.py:424-426 | a name built from prefix, middle and extension starts with the prefix, ends with the dotted extension, and has the summed length |
| Persistence.KeyFolder | project_files/source/app/data_persisting/persistence.py:429-439 | a folder that survives `strip('/')` is non-empty and neither starts nor ends with a slash |
| Persistence.ObjectKey | project_files/source/app/data_persisting/persistence.py:421-439 | the object key is the stripped folder, a slash and the file name, or the file name alone when no folder remains; it ends with the format's extension |
| Persistence.BaseMetadataFields | project_files/source/app/data_persisting/persistence.py:448-456 | object metadata records the upload time, the record count and the format, and for a DataFrame its column count and comma-joined names, and nothing else otherwise |
| Persistence.CallerMetadataOverrides | project_files/source/app/data_persisting/persistence.py:458-461 | every caller metadata key ends up with `str()` of its value, and every other key keeps its default |
| Persistence.SaveData | project_files/source/app/data_persisting/persistence.py:395-490 | the save fails iff preparation or upload fails, with that error; on success it reports the object key, bucket, format, record count, size, content type and merged metadata the upload used |
| Persistence.Listed | project_files/source/app/data_persisting/persistence.py:614-631 | the filtered listing never has more entries than the bucket listing |
| Persistence.ListFiles | project_files/source/app/data_persisting/persistence.py:597-637 | a listing error gives an empty list; otherwise the loop returns exactly the filtered listing (`Listed`) |
| Persistence.ListedProperties | project_files/source/app/data_persisting/persistence.py:616-631 | every listed file matches the filter; without a filter every object is listed, described in order |
| Persistence.ListedStep | project_files/source/app/data_persisting/persistence.py:616-631 | one more object extends the files gathered so far by its description exactly when it matches the filter |
| Persistence.ListedHead | project_files/source/app/data_persisting/persistence.py:616-631 | the listing of a suffix starts with its first object's description when that matches the filter |
| Persistence.ListedMatchesFilter | project_files/source/app/data_persisting/persistence.py:625-630 | a file listed under a format filter has a dotted key whose lower-cased last segment is the format's value |
| Collector.ProcessUrlParameters | project_files/source/app/data_collection/collector.py:125-140 | the loop yields exactly `Substituted`: each parameter's `{key}` replaced by `str(value)`, in parameter order |
| Collector.NoPlaceholderUnchanged | project_files/source/app/data_collection/collector.py:136-140 | a URL without a brace comes back unchanged, whatever the parameters |
| Collector.OnePlaceholderReplaced | project_files/source/app/data_collection/collector.py:137-139 | a URL with one placeholder for the one parameter gets that parameter's `str()` in its place and nothing else changes |
| Collector.SanitizeHeaders | project_files/source/app/data_collection/collector.py:267-287 | every header keeps its name and place; its value becomes `[REDACTED]` iff the lower-cased name is one of the eight sensitive names |
| Collector.StoreAllKeys | project_files/source/app/data_collection/collector.py:319 | `dict(items)` holds distinct keys, exactly the keys of the pairs |
| Collector.FlattenLeaves | project_files/source/app/data_collection/collector.py:301-319 | a flattened value holds no dict and no list |
| Collector.FlattenIsOneLevel | project_files/source/app/data_collection/collector.py:289-319 | flattening yields a one-level dict: distinct keys, no container values |
| Collector.ScalarDictFlattensToItself | project_files/source/app/data_collection/collector.py:303-312 | a dict of scalars with distinct keys flattens to itself |
| Collector.NestedKeysJoined | project_files/source/app/data_collection/collector.py:305-307| a dict of scalars (distinct keys) under key `k` flattens to its entries, in order, each key joined to `k` by the separator (kept as is for an empty `k`), and a lookup of each joined key gives that entry's value |
| Collector.ListItemIndexed | project_files/source/app/data_collection/collector.py:308-310| a list of scalars under key `k` flattens to the keys `k<sep>0`, `k<sep>1`, … in order, and a lookup of `k<sep>i` gives item `i` |
| Collector.FlattenJsonData | project_files/source/app/data_collection/collector.py:289-319 | the recursive method returns exactly the flattening `Flatten` defines |
| Collector.ExtendWithEntries | project_files/source/app/data_collection/collector.py:304-312 | `items.extend` over a dict's pairs appends exactly their flattened items |
| Collector.ExtendWithEntry | project_files/source/app/data_collection/collector.py:305-312 | one pair appends its flattened items: a nested dict's, a list's indexed items, or the pair itself |
| Collector.ExtendWithItems | project_files/source/app/data_collection/collector.py:309-310 | a list's items are appended flattened under their indexed keys, in order |
| Collector.FromContentType | project_files/source/app/data_collection/collector.py:334-344| the header rules in order: JSON iff `application/json` occurs; CSV iff `text/csv` and not JSON; XML iff `text/xml` or `application/xml` and neither before; HTML and TSV likewise; no verdict iff none of the six media types occurs; never TXT or BINARY |
| Collector.FromContent | project_files/source/app/data_collection/collector.py:346-359| a dict or list is JSON; a string is XML iff stripped it is wrapped in `<` `>`, else CSV iff it has a comma and a newline, else TXT; anything else is BINARY; never HTML or TSV |
| Collector.HeaderValue | project_files/source/app/data_collection/collector.py:334 | the header value is empty when no header has the name |
| Collector.DetectFileType | project_files/source/app/data_collection/collector.py:321-359 | a recognised content type decides the file type; otherwise the content does |
| Collector.DetectFileTypeAsWritten | project_files/source/app/data_collection/collector.py:321-359 | `_detect_file_type` as written: a content type recognised under the exact key `content-type` decides, when there are headers; otherwise the content does |
| Collector.CapitalisedContentTypeIgnored | project_files/source/app/data_collection/collector.py:333-336 | a `Content-Type: application/json` header with a CSV-looking body gives CSV as written, JSON when the header is found case-insensitively |
| Collector.JsonMediaType | project_files/source/app/data_collection/collector.py:335-336 | a content type starting with `application/json` is JSON |
| Collector.DetectorsAgreeOnLowerCaseHeader | project_files/source/app/data_collection/collector.py:333-359 | when every content-type header is spelled in lower case, the code as written and the corrected detector agree |
| Collector.ExactLookupIsHeaderValue | project_files/source/app/data_collection/collector.py:334 | with lower-case names only, the exact lookup finds the same value as the case-insensitive one |
| Collector.TabTextDetectorsDiffer | project_files/source/app/data_collection/collector.py:349-357 | tab-separated text without commas or angle brackets is TXT for the collector, while the persistence layer calls it TSV |
| Collector.FilePrefix | project_files/source/app/data_collection/collector.py:385 | `file_prefix` when configured, else `csv_prefix`, else `data` |
| Collector.FileName | project_files/source/app/data_collection/collector.py:383-386| the name is the file prefix, `_`, a 15-character stamp that parses back to the clock reading (microseconds dropped), `_`, the first eight characters of the uuid, `.` and the file type |
| Collector.FrameRecords | project_files/source/app/data_collection/collector.py:427-439| a list gives its records; a dict without nested values is the one record itself; a dict with nested values is one record of its flattened pairs (separator `_`); a scalar gives one `{'value': data}` record |
| Collector.RowOf | project_files/source/app/data_collection/collector.py:430-431 | one item of a list frame: a dict gives its pairs, a list gives its items under the column names `0`, `1`, …, a scalar gives column `0` |
| Collector.DictRecordIsFlat | project_files/source/app/data_collection/collector.py:432-437 | the one record made from a dict holds no nested value |
| Collector.ShapedRows | project_files/source/app/data_collection/collector.py:427-446 | the file gets one row per record |
| Collector.ShapedRowsCarryMetadata | project_files/source/app/data_collection/collector.py:441-444 | every written row carries `api_name`, `timestamp` and `unique_id`, and every other column keeps the record's value |
| Collector.OutputFolder | project_files/source/app/data_collection/collector.py:379 | joining the base directory with the folder succeeds iff the folder is a string, and otherwise raises `TypeError` naming its type; an absolute folder replaces the base, any other ends the base-prefixed path |
| Collector.SaveToFile | project_files/source/app/data_collection/collector.py:361-420 | saving succeeds iff `output_folder` is configured as a string, `name` is configured and the write succeeds; a missing `output_folder` raises `KeyError`; the result records the chosen or detected type, the raw data, a path in the joined output folder ending with the file name, the API name and the 8-character id |
| Collector.SaveToCsv | project_files/source/app/data_collection/collector.py:526-538 | the legacy CSV save succeeds iff the CSV save does, and its path ends with `.csv` |
| Collector.CollectorXmlKeepsKeys | project_files/source/app/data_collection/collector.py:513-518 | each dict key becomes the tag of its child element, unsanitised and in order |
| Collector.RunOne | project_files/source/app/data_collection/collector.py:550-580 | a result carries the API's name (`unnamed_api` by default) and fails iff the call or the save fails |
| Collector.RunAllApis | project_files/source/app/data_collection/collector.py:540-582 | one result per configured API, in order, each the result of running that API alone |
| Collector.RunAllApisIsolatesFailures | project_files/source/app/data_collection/collector.py:553-580 | an API whose call fails gives a `failed` entry with its name and error, whatever the others do |
| Collector.FindApiConfig | project_files/source/app/data_collection/collector.py:594-599 | the loop finds the first configuration with the name, or none iff no configuration has it |
| Collector.RunSingleApi | project_files/source/app/data_collection/collector.py:584-633 | an unknown name raises `API configuration not found for: <name>`; otherwise the first configuration with the name is run and the result carries that name |
| Xml.SafeKey | project_files/source/app/data_persisting/persistence.py:355 | the sanitised key has the key's length, no space and no hyphen, and differs from it only where a space or hyphen became `_` |
| Xml.TextOf | project_files/source/app/data_persisting/persistence.py:362-363 | an element gets text iff the value converted into it is a scalar |
| Xml.ChildrenOf | project_files/source/app/data_persisting/persistence.py:349-363 | a dict gives one child per entry, a list one per item, a scalar none |
| Xml.EntryNodesAt | project_files/source/app/data_persisting/persistence.py:353-357 | the i-th child of a dict is entry i converted under its (sanitised or plain) key |
| Xml.ItemNodesAt | project_files/source/app/data_persisting/persistence.py:359-361 | the i-th child of a list is item i converted under the tag `item_<i>` |
| Xml.Fill | project_files/source/app/data_persisting/persistence.py:349-363 | the conversion appends exactly the children `ChildrenOf` defines, sets the text only for a scalar, and keeps the tag |
| Xml.AppendChild | project_files/source/app/data_persisting/persistence.py:356-357 | `ET.SubElement` then the recursive fill adds the converted child as the parent's last child and changes nothing else |
| Xml.FillEntries | project_files/source/app/data_collection/collector.py:515-518 | the dict loop appends one converted child per entry, in order |
| Xml.FillItems | project_files/source/app/data_collection/collector.py:519-522 | the list loop appends one converted `item_<i>` child per item, in order |
| Xml.ToTree | project_files/source/app/data_persisting/persistence.py:295-297 | the tree under `root` is exactly the conversion `Build` defines |
| Xml.SanitizedTagsSafe | project_files/source/app/data_persisting/persistence.py:355-361 | every tag the persistence conversion writes is free of spaces and hyphens |
| Tables.Sort | project_files/source/app/data_processing/processor.py:185 | `sort_values` yields a sorted permutation of its input |
| Tables.DedupProperties | project_files/source/app/data_processing/processor.py:178 | `drop_duplicates(keep='first')` keeps a subsequence with distinct keys, every key of the input, and for each key its first row |
| Tables.DedupSortProperties | project_files/source/app/data_processing/processor.py:178-185 | dedup then sort gives sorted rows with distinct keys, drawn from the input, each key of the input present by its first row |
| Calendar.CompactStamp | project_files/source/app/data_persisting/persistence.py:423 | the `%Y%m%d_%H%M%S` stamp has 15 characters with `_` at position 8 |
| Calendar.CompactStampRoundTrip | project_files/source/app/data_persisting/persistence.py:423-424 | the stamp in a file name reads back as the second it was taken |
| Calendar.PathStamp | project_files/source/data_ingestion/lambda/fetch_data_lambda.py:156 | the `%Y/%m/%d/%H%M%S` stamp has 17 characters with slashes at 4, 7 and 10 |
| Calendar.SameHourSameReadings | project_files/source/app/data_processing/processor.py:218-228 | two instants in the same floored hour share hour of day and weekday |
| Json.Store | project_files/source/app/data_persisting/persistence.py:460-461 | `d[key] = value` keeps the key order, appends a new key at the end, and stores the value |
| Json.StoreOther | project_files/source/app/data_persisting/persistence.py:460-461 | storing under one key leaves every other key's value alone |
| Json.ToFloat | backend/app/allinone.py:103 | `float()` keeps an int's or float's value, maps booleans to 1 and 0, accepts a string iff it parses as a plain decimal literal (giving that value) and a byte string iff it is ASCII text that does, and raises for None, lists, dicts and frames |
| Encoding.Utf8 | project_files/source/app/data_persisting/persistence.py:347 | `encode('utf-8')` gives between one and four bytes per character |
| Encoding.Utf8Ascii | project_files/source/app/data_persisting/persistence.py:347 | ASCII text encodes to one byte per character, each the character's code |

## Left out

- HTTP, retries, SSL, sessions and authentication (`_create_session`, `make_api_call`'s request, `_validate_url`, `get_generation_mix`, `get_load_forecast`, the lambda's request) are left out. Their outcome is a parameter (`call`, `fetched`) holding a response or an error.
- S3 and the file system are not modelled: `put_object`, `head_bucket`, `list_objects_v2`, `_verify_bucket_access`, `_ensure_folder_exists`, the `_save_*_file` writers, `os.path.getsize`, `mkdir`, SQLite and `save_to_storage`. An upload or write failure is an `Option<string>` parameter, and the bucket listing is an input sequence.
- The bytes that pandas, `json`, `yaml`, ElementTree and pyarrow write are not computed. The model records which writer is chosen and with which input, and the bytes come from a `render` parameter. Only byte pass-through and UTF-8 encoding are computed.
- Floating point is modelled as `real`. `.round(n)` is omitted, NaN is explicit only where the source produces it (`Season`, `Divide`, `Clip`), and Python's `str()` of a float is a fixed decimal rendering.
- The calendar readings pandas derives (`to_datetime`, weekday, ISO week, month, date) are inputs. Only hour, minute and weekday are tied to the epoch seconds by arithmetic, and the quarter to the month.
- `datetime.now()`, `isoformat()` and `uuid.uuid4()` are parameters.
- The order of `list(set)` in `find_duplicates_linear` is left open by `Duplicates.ListOf`. The benchmark's timing and printing, `data_engineering_example` and `complexity_analysis` are left out: they only time, print and generate random data.
- `EnergyData.AsWrittenFinish`: `backend/app/allinone.py` does not parse as it stands. Line 140 is a bare `---` between two pasted files, and the file ends with `try` without a colon inside `_validate_data`, so importing it raises `SyntaxError`. The model reads the file as its two classes completed: `_validate_data` is cut off and `_sort_data` is never defined. `EnergyData.EnergyDataProcessor.ProcessEnergyData` takes the outcome of these two final steps as the parameter `finish`. `EnergyData.AsWrittenFinish` stands for the missing `_sort_data` under that reading, where the step raises `AttributeError`; the `SyntaxError` itself is not modelled.
- The lambda's endpoint string is not modelled: `full_source_url` interpolates a list, and the handler calls the bare base URL. The response is the `fetched` input.
- `process_collector_data`, `save_csv`/`save_json`/`save_txt`/`save_parquet` (thin wrappers over `save_data`), `_detect_format_from_file` and `get_pipeline_status` are not modelled. The upload a pipeline run makes is an `Uploader` parameter.
- `load_config`, `_load_api_config`, the password prompts, logging set-up, argparse and every `main()` are left out: they are I/O and interaction.
- `get_processing_summary`, `calculate_load_weighted_average` and the price ratios against daily and system averages in `_add_derived_fields` are pandas aggregations over floats. They are left out.
- `Processor.HourlyAverages`: the standard deviation is a parameter `std`, and rounding to four places is omitted.
- `Processor.DeriveRow`: the `quantile(0.75)` volatility threshold is a parameter.
- `Processor.DetectPriceAnomalies`: the quartiles, mean, standard deviation, median and MAD are a `PriceStats` parameter, required to have a non-negative spread. The contract states the `iqr` flags exactly and the `zscore` flags for a positive spread and a non-negative threshold. For `modified_zscore` it states only one flag per price.
- `Processor.LmpOutliers`: the count of out-of-range prices is only logged in the source; the contract bounds it by the row count.
- `Processor.CleanAsWritten`: its contract gives only the length bound; `Processor.RawIdDedupKeepsStrippedDuplicates` shows where it differs from the corrected `Processor.Clean`.
- `Processor.DedupSortRawIds`: likewise only the length bound, as the as-written half of the first finding. The dedup compares the raw cells, but the sort orders a `location_id` that is not a string as `""`; how pandas orders a column mixing numbers and strings is not modelled.
- `IngestionLambda.TransformData`: `Tables.Sort` is stable, so rows with equal `DateTime` keep their input order. `sort_values('DateTime')` uses a sort that is not stable, so the source fixes no order among them. Every fuel row of one interval shares its `BeginDate`, so this order is a choice of the model. No contract depends on it. A NaT `DateTime` is `None` in `Row.when` and sorts last; `convert` stands for `to_datetime`, so it answers `None` for `''` and fails for an instant outside pandas' timestamp range.
- `Persistence.PrepareData`: for JSON, CSV, TSV, Parquet, a DataFrame as XML or HTML, and YAML with the library present, the contract states only that preparation succeeds (or fails for CSV or Parquet of a non-DataFrame). Which writer is chosen is visible in the body only.
- `Persistence.SaveData`: pandas' `str()` of metadata values is `Json.Str`, which renders a bytes value and a DataFrame as fixed placeholders.
- `Collector.HeaderValue`: the contract states only that an absent header reads as empty. `Collector.ExactLookupIsHeaderValue` ties it to the exact lookup when every header name is lower-case.
- `Collector.ShapedRows`: the contract states only one row per record; `Collector.ShapedRowsCarryMetadata` states the cells.
- `Encoding.Utf8`: the contract bounds only the length; `Encoding.Utf8Ascii` gives the exact bytes for ASCII text.
- `Calendar.CompactStamp` and `Calendar.PathStamp` state the layout (length, separators). `Calendar.CompactStampRoundTrip` states the digits for the compact stamp; the path stamp's digits are stated in its body only.
- `PipelineIntegration.MissingLines`: the contract gives a bound; `PipelineIntegration.CheckFields` and `PipelineIntegration.NoMissingLines` state the lines.
- `Processor.ProcessRawData`, `Processor.ProcessRawDataRows`: both compose the corrected `Processor.Clean`. As written, `process_raw_data` calls `_clean_data`, which is `Processor.CleanAsWritten`; the first row under Findings shows the inputs where the two differ.
- `Collector.SaveToFile`: it composes the corrected `Collector.DetectFileType`. As written, `save_to_file` detects with `Collector.DetectFileTypeAsWritten`; the second row under Findings shows where they differ and `Collector.DetectorsAgreeOnLowerCaseHeader` where they agree.
- `Json.ParseDecimal`: only plain decimal literals with an optional sign are read. Exponent forms (`1e3`), digit-group underscores (`1_000`), `inf` and `nan` are refused. So `Json.ToFloat` raises and `Processor.Coerce` gives 0 for these, where `float()` and `to_numeric` return a value.
- `Processor.Coerce`: a byte string is given 0; what `to_numeric` does with bytes cells is not modelled.
- `Text.Lower`, `Text.Strip`: ASCII only. `Lower` maps only `A`-`Z`, so no character lower-cases to two, and `Strip` removes only ASCII whitespace, not U+00A0 and the other Unicode spaces. `PipelineIntegration.FallbackFolderIsPlain` and every lower-cased or stripped comparison hold for this ASCII reading.
- `Collector.RowOf`: each list record is read on its own. The union of columns pandas builds over all records, and a list that mixes dicts with lists or scalars, are not modelled.
- `Processor.ToRecord`: a `location_id` or `location_name` cell that is not a string, in a column `.str` accepts, becomes `""` or missing. pandas gives NaN there, and strips a bytes cell as bytes.
- `Collector.OutputFolder`: pathlib's normalisation is not modelled. A doubled or trailing `/`, a `.` component and a base that is itself empty are joined as plain text, where `Path` would collapse them.
- The collector's `process_url_parameters`, `_sanitize_headers` and `flatten_json_data` in `backend/app/download_to_file.py` are the same code as in `collector.py`. They are modelled once, as the `Collector` members.

## Findings

| source | as written | input that shows it | evidently intended | confidence | as-written member | corrected member |
|---|---|---|---|---|---|---|
| project_files/source/app/data_processing/processor.py:178-189 | `drop_duplicates` and `sort_values` run on the raw `location_id`, which is stripped only afterwards | two rows at the same timestamp with `location_id` `"A"` and `"A "`: both survive, and after the strip they share the key `(timestamp, "A")` | deduplicate and sort on the stripped id, so no two cleaned rows share `(timestamp, location_id)` | not executed | Processor.RawIdDedupKeepsStrippedDuplicates | Processor.DedupSortStrippedProperties |
| project_files/source/app/data_collection/collector.py:333-334 | the content type is read with `response_headers.get('content-type')`, a case-sensitive lookup on a plain dict | headers `{'Content-Type': 'application/json'}` with the body `"a,b\n1,2"`: the header is missed and the body is sniffed as CSV | HTTP header names are case-insensitive (section 5.1 of RFC 9110), so the header should decide JSON | not executed | Collector.CapitalisedContentTypeIgnored | Collector.DetectFileType |
