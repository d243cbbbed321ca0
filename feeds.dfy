/** The ISO-NE feed readers: a response holds a list of groups under an outer
    key, each group a list of entries under an inner key, and every entry
    becomes one flat record with its megawatts scaled to kilowatts. The
    generation-mix and load-forecast readers of `backend/app/allinone.py` and
    the extraction loop of the data-ingestion lambda differ only in their keys
    and in the columns they add. */
module Feeds {
  import opened Base
  import opened Json

  datatype Feed = GenerationMix | LoadForecast | LambdaGeneration
  {
    function OuterKey(): string {
      if this == LoadForecast then "HourlyLoadForecasts" else "GenMixes"
    }

    function InnerKey(): string {
      if this == LoadForecast then "HourlyLoadForecast" else "GenMixs"
    }

    function MwKey(): string {
      if this == LoadForecast then "LoadMw" else "GenMw"
    }
  }

  /** The columns after `DateTime` and `kWh`: the fuel and the source for the
      two readers of the energy client, none for the lambda. */
  function ExtraColumns(feed: Feed, entry: seq<Entry>): seq<Entry> {
    match feed
    case GenerationMix =>
      [Entry("FuelType", Lookup(entry, "FuelCategory").GetOr(VStr("Unknown"))), Entry("Source", VStr("generation_mix"))]
    case LoadForecast =>
      [Entry("FuelType", VStr("Load_Forecast")), Entry("Source", VStr("load_forecast"))]
    case LambdaGeneration => []
  }

  /** The record built from one entry: `DateTime` is `BeginDate` or `''`, and
      `kWh` is `float(entry.get(<megawatts key>, 0)) * 1000`; an entry that is not a dict, or
      whose megawatts `float()` rejects, raises. */
  function RecordOf(feed: Feed, entry: Value): (r: Result<seq<Entry>>)
    ensures r.Ok? <==> entry.VDict? && Megawatts(feed, entry.entries).Ok?
    ensures r.Ok? ==>
      && entry.VDict? && Megawatts(feed, entry.entries).Ok?
      && r.value == Record(Lookup(entry.entries, "BeginDate").GetOr(VStr("")),
                           Kilowatts(Megawatts(feed, entry.entries).value), ExtraColumns(feed, entry.entries))
  {
    if !entry.VDict? then Err(DictGet(entry, "BeginDate", VStr("")).error)
    else
      var mw := Megawatts(feed, entry.entries);
      if mw.Err? then Err(mw.error)
      else Ok(Record(Lookup(entry.entries, "BeginDate").GetOr(VStr("")), Kilowatts(mw.value), ExtraColumns(feed, entry.entries)))
  }

  /** `<megawatts> * 1000` */
  function Kilowatts(mw: real): real {
    mw * 1000.0
  }

  /** `float(entry.get(<megawatts key>, 0))` */
  function Megawatts(feed: Feed, entry: seq<Entry>): Result<real> {
    ToFloat(Lookup(entry, feed.MwKey()).GetOr(VInt(0)))
  }

  function Record(when: Value, kWh: real, extra: seq<Entry>): (r: seq<Entry>)
    ensures |r| == 2 + |extra|
    ensures r[0] == Entry("DateTime", when) && r[1] == Entry("kWh", VReal(kWh)) && r[2..] == extra
  {
    [Entry("DateTime", when), Entry("kWh", VReal(kWh))] + extra
  }

  /** `RecordOf` for one feed, as the function mapped over a group's entries. */
  function Reader(feed: Feed): Value -> Result<seq<Entry>> {
    entry => RecordOf(feed, entry)
  }

  /** The records of a group's entries, in order; the first failing entry's
      error otherwise. */
  function EntryRecords(feed: Feed, entries: seq<Value>): Result<seq<seq<Entry>>> {
    MapAll(Reader(feed), entries)
  }

  /** `for x in container[key]` when `key in container`; nothing when it is not. */
  function Members(container: Value, key: string): (r: Result<seq<Value>>)
    ensures container.VDict? && key !in Keys(container.entries) ==> r == Ok([])
    ensures container.VDict? && key in Keys(container.entries) && Lookup(container.entries, key).value.VList? ==>
      r == Ok(Lookup(container.entries, key).value.items)
  {
    match In(key, container)
    case Err(e) => Err(e)
    case Ok(present) =>
      if !present then Ok([])
      else
        match GetItem(container, key)
        case Err(e) => Err(e)
        case Ok(v) => Iterate(v)
  }

  /** The records of one group. */
  function GroupRecords(feed: Feed, group: Value): Result<seq<seq<Entry>>> {
    match Members(group, feed.InnerKey())
    case Err(e) => Err(e)
    case Ok(entries) => EntryRecords(feed, entries)
  }

  /** The records of the groups, group after group. */
  function GroupsRecords(feed: Feed, groups: seq<Value>): Result<seq<seq<Entry>>>
  {
    if groups == [] then Ok([])
    else
      match GroupsRecords(feed, groups[..|groups| - 1])
      case Err(e) => Err(e)
      case Ok(rs) =>
        match GroupRecords(feed, groups[|groups| - 1])
        case Err(e) => Err(e)
        case Ok(more) => Ok(rs + more)
  }

  /** What a reader returns for a decoded response. */
  function Records(feed: Feed, data: Value): Result<seq<seq<Entry>>> {
    match Members(data, feed.OuterKey())
    case Err(e) => Err(e)
    case Ok(groups) => GroupsRecords(feed, groups)
  }

  /** Once a prefix of the groups fails, the whole list fails with the same error. */
  lemma {:induction false} GroupErrorStays(feed: Feed, groups: seq<Value>, n: nat)
    requires n <= |groups| && GroupsRecords(feed, groups[..n]).Err?
    ensures GroupsRecords(feed, groups) == GroupsRecords(feed, groups[..n])
    decreases |groups| - n
  {
    if n < |groups| {
      assert groups[..n + 1][..n] == groups[..n];
      GroupErrorStays(feed, groups, n + 1);
    } else {
      assert groups[..n] == groups;
    }
  }

  /** One more group extends the records with that group's own, or fails with its error. */
  lemma GroupsRecordsStep(feed: Feed, groups: seq<Value>, i: nat, records: seq<seq<Entry>>)
    requires i < |groups| && GroupsRecords(feed, groups[..i]) == Ok(records)
    ensures GroupsRecords(feed, groups[..i + 1]) ==
      match GroupRecords(feed, groups[i])
      case Err(e) => Err(e)
      case Ok(more) => Ok(records + more)
  {
    assert groups[..i + 1][..i] == groups[..i];
  }

  /** The reader: the nested loops that append one record per entry. */
  method ParseRecords(feed: Feed, data: Value) returns (r: Result<seq<seq<Entry>>>)
    ensures r == Records(feed, data)
  {
    var groups := Members(data, feed.OuterKey());
    if groups.Err? {
      return Err(groups.error);
    }
    var records: seq<seq<Entry>> := [];
    for i := 0 to |groups.value|
      invariant GroupsRecords(feed, groups.value[..i]) == Ok(records)
    {
      var fromGroup := ReadGroup(feed, groups.value[i]);
      GroupsRecordsStep(feed, groups.value, i, records);
      if fromGroup.Err? {
        GroupErrorStays(feed, groups.value, i + 1);
        return Err(fromGroup.error);
      }
      records := records + fromGroup.value;
    }
    assert groups.value[..|groups.value|] == groups.value;
    r := Ok(records);
  }

  /** The body of the outer loop for one group: `if inner key in group`, then
      the inner loop over its entries. */
  method ReadGroup(feed: Feed, group: Value) returns (r: Result<seq<seq<Entry>>>)
    ensures r == GroupRecords(feed, group)
  {
    var entries := Members(group, feed.InnerKey());
    if entries.Err? {
      return Err(entries.error);
    }
    var records: seq<seq<Entry>> := [];
    for j := 0 to |entries.value|
      invariant MapAll(Reader(feed), entries.value[..j]) == Ok(records)
    {
      var record := RecordOf(feed, entries.value[j]);
      if record.Err? {
        MapAllFirstError(Reader(feed), entries.value, j);
        return Err(record.error);
      }
      MapAllExtend(Reader(feed), entries.value, j, records);
      records := records + [record.value];
    }
    assert entries.value[..|entries.value|] == entries.value;
    r := Ok(records);
  }

  /** A group's entries give one record each, in order, each the entry's own
      record, and they fail exactly when one entry does. */
  lemma OneRecordPerEntry(feed: Feed, entries: seq<Value>)
    ensures EntryRecords(feed, entries).Ok? <==> forall i :: 0 <= i < |entries| ==> RecordOf(feed, entries[i]).Ok?
    ensures EntryRecords(feed, entries).Ok? ==>
      && |EntryRecords(feed, entries).value| == |entries|
      && forall i :: 0 <= i < |entries| ==> RecordOf(feed, entries[i]) == Ok(EntryRecords(feed, entries).value[i])
  {
    MapAllEach(Reader(feed), entries);
  }

  /** Every record of a list of groups is the record of some entry. */
  lemma {:induction false} GroupsRecordsFromEntries(feed: Feed, groups: seq<Value>, i: nat)
    requires GroupsRecords(feed, groups).Ok? && i < |GroupsRecords(feed, groups).value|
    ensures exists entry :: RecordOf(feed, entry) == Ok(GroupsRecords(feed, groups).value[i])
  {
    var init := groups[..|groups| - 1];
    var rs := GroupsRecords(feed, init).value;
    var more := GroupRecords(feed, groups[|groups| - 1]).value;
    assert GroupsRecords(feed, groups).value == rs + more;
    if i < |rs| {
      GroupsRecordsFromEntries(feed, init, i);
    } else {
      var entries := Members(groups[|groups| - 1], feed.InnerKey()).value;
      OneRecordPerEntry(feed, entries);
      assert RecordOf(feed, entries[i - |rs|]) == Ok(more[i - |rs|]);
    }
  }

  /** Every record a reader returns is the record of some entry. */
  lemma RecordsComeFromEntries(feed: Feed, data: Value, i: nat)
    requires Records(feed, data).Ok? && i < |Records(feed, data).value|
    ensures exists entry :: RecordOf(feed, entry) == Ok(Records(feed, data).value[i])
  {
    GroupsRecordsFromEntries(feed, Members(data, feed.OuterKey()).value, i);
  }

  /** The columns of a record, in order: `DateTime`, `kWh`, then the fuel and
      the source for the two readers of the energy client. */
  function Columns(feed: Feed): seq<string> {
    if feed == LambdaGeneration then ["DateTime", "kWh"] else ["DateTime", "kWh", "FuelType", "Source"]
  }

  lemma RecordColumns(feed: Feed, entry: Value)
    requires RecordOf(feed, entry).Ok?
    ensures Keys(RecordOf(feed, entry).value) == Columns(feed)
  {
    var r := RecordOf(feed, entry).value;
    assert r == r[..2] + r[2..];
  }

  /** Every record is a dict: its column names are distinct. */
  lemma RecordKeysDistinct(feed: Feed, entry: Value)
    requires RecordOf(feed, entry).Ok?
    ensures DistinctKeys(RecordOf(feed, entry).value)
  {
    RecordColumns(feed, entry);
    ColumnsDistinct(feed);
    var r := RecordOf(feed, entry).value;
    var names := Keys(r);
    forall i, j | 0 <= i < j < |r| ensures r[i].key != r[j].key {
      assert r[i].key == names[i] && r[j].key == names[j];
    }
  }

  /** No column name occurs twice. */
  lemma ColumnsDistinct(feed: Feed)
    ensures forall i, j :: 0 <= i < j < |Columns(feed)| ==> Columns(feed)[i] != Columns(feed)[j]
  {
    assert "DateTime"[0] != "kWh"[0] && "DateTime"[0] != "FuelType"[0] && "DateTime"[0] != "Source"[0];
    assert "kWh"[0] != "FuelType"[0] && "kWh"[0] != "Source"[0] && "FuelType"[0] != "Source"[0];
  }

  /** `kWh` is the entry's megawatts times a thousand. */
  lemma KilowattsOfMegawatts(feed: Feed, entry: seq<Entry>, mw: real)
    requires Lookup(entry, feed.MwKey()) == Some(VReal(mw))
    ensures RecordOf(feed, VDict(entry)).Ok?
    ensures RecordOf(feed, VDict(entry)).value[1] == Entry("kWh", VReal(Kilowatts(mw)))
  {
    assert Megawatts(feed, entry) == Ok(mw);
  }

  /** An entry without megawatts counts as zero, not as an error. */
  lemma MissingMegawattsAreZero(feed: Feed, entry: seq<Entry>)
    requires feed.MwKey() !in Keys(entry)
    ensures RecordOf(feed, VDict(entry)).Ok?
    ensures RecordOf(feed, VDict(entry)).value[1] == Entry("kWh", VReal(0.0))
  {
  }

  /** `DateTime` is the entry's `BeginDate`, or `''` without one. */
  lemma RecordDateTime(feed: Feed, entry: seq<Entry>)
    requires RecordOf(feed, VDict(entry)).Ok?
    ensures "BeginDate" in Keys(entry) ==> Lookup(entry, "BeginDate") == Some(RecordOf(feed, VDict(entry)).value[0].val)
    ensures "BeginDate" !in Keys(entry) ==> RecordOf(feed, VDict(entry)).value[0] == Entry("DateTime", VStr(""))
  {
  }

  /** A generation entry without a fuel category is of fuel `Unknown`. */
  lemma UnknownFuel(entry: seq<Entry>)
    requires "FuelCategory" !in Keys(entry) && RecordOf(GenerationMix, VDict(entry)).Ok?
    ensures RecordOf(GenerationMix, VDict(entry)).value[2] == Entry("FuelType", VStr("Unknown"))
    ensures RecordOf(GenerationMix, VDict(entry)).value[3] == Entry("Source", VStr("generation_mix"))
  {
  }

  /** Every load-forecast record carries the fixed fuel and source labels. */
  lemma LoadForecastLabels(entry: seq<Entry>)
    requires RecordOf(LoadForecast, VDict(entry)).Ok?
    ensures RecordOf(LoadForecast, VDict(entry)).value[2] == Entry("FuelType", VStr("Load_Forecast"))
    ensures RecordOf(LoadForecast, VDict(entry)).value[3] == Entry("Source", VStr("load_forecast"))
  {
  }

  /** An entry that is not a dict fails the whole reader. */
  lemma NonDictEntryFails(feed: Feed, entries: seq<Value>, i: nat)
    requires i < |entries| && !entries[i].VDict?
    ensures EntryRecords(feed, entries).Err?
  {
    OneRecordPerEntry(feed, entries);
  }

  /** A response without the outer key gives no records. */
  lemma MissingOuterKeyGivesNothing(feed: Feed, data: seq<Entry>)
    requires feed.OuterKey() !in Keys(data)
    ensures Records(feed, VDict(data)) == Ok([])
  {
  }

  /** A group without the inner key contributes nothing. */
  lemma MissingInnerKeyContributesNothing(feed: Feed, group: seq<Entry>)
    requires feed.InnerKey() !in Keys(group)
    ensures GroupRecords(feed, VDict(group)) == Ok([])
  {
  }
}
