/** `APIDataCollector` (collector.py): URL placeholder substitution, header
    redaction, JSON flattening, the header-then-content file type detector,
    file naming, the table shaping before CSV/TSV output, and the per-API
    result accumulation. HTTP calls, the clock, uuids and file writes are
    parameters. */
module Collector {
  import opened Base
  import opened Text
  import opened Json
  import opened Calendar
  import opened Xml
  import Persistence

  /* ---------- process_url_parameters ---------- */

  /** `f"{{{key}}}"` */
  function Placeholder(key: string): (r: string)
    ensures |r| == |key| + 2 && r[0] == '{'
  {
    "{" + key + "}"
  }

  /** The URL after `url.replace("{key}", str(value))` for each parameter in order. */
  function Substituted(url: string, params: seq<Entry>): string
    decreases |params|
  {
    if params == [] then url
    else Substituted(Replace(url, Placeholder(params[0].key), Str(params[0].val)), params[1..])
  }

  /** `process_url_parameters`: the `placeholder in url` guard only skips
      replacements that would change nothing. */
  method ProcessUrlParameters(url: string, params: seq<Entry>) returns (r: string)
    ensures r == Substituted(url, params)
  {
    r := url;
    var i := 0;
    while i < |params|
      invariant 0 <= i <= |params|
      invariant Substituted(r, params[i..]) == Substituted(url, params)
    {
      var placeholder := Placeholder(params[i].key);
      assert params[i..][1..] == params[i + 1..];
      if Contains(r, placeholder) {
        r := Replace(r, placeholder, Str(params[i].val));
      } else {
        ReplaceAbsent(r, placeholder, Str(params[i].val));
      }
      i := i + 1;
    }
  }

  /** A URL without any `{` comes back unchanged. */
  lemma {:induction false} NoPlaceholderUnchanged(url: string, params: seq<Entry>)
    requires '{' !in url
    ensures Substituted(url, params) == url
    decreases |params|
  {
    if params != [] {
      var p := Placeholder(params[0].key);
      if Contains(url, p) {
        ContainsHead(url, p);
      }
      ReplaceAbsent(url, p, Str(params[0].val));
      NoPlaceholderUnchanged(url, params[1..]);
    }
  }

  /** A single placeholder is replaced by `str(value)` where it stands. */
  lemma OnePlaceholderReplaced(before: string, key: string, after: string, value: Value)
    requires '{' !in before && '{' !in after
    ensures Substituted(before + Placeholder(key) + after, [Entry(key, value)]) == before + Str(value) + after
  {
    ReplaceOnce(before, Placeholder(key), after, Str(value));
  }

  /* ---------- _sanitize_headers ---------- */

  const SensitiveHeaders: seq<string> :=
    ["authorization", "x-api-key", "api-key", "token", "cookie", "set-cookie", "x-auth-token", "password"]

  const Redacted: Value := VStr("[REDACTED]")

  /** `_sanitize_headers`: a copy of the headers with every sensitive one redacted. */
  method SanitizeHeaders(headers: seq<Entry>) returns (sanitized: seq<Entry>)
    requires DistinctKeys(headers)
    ensures |sanitized| == |headers|
    ensures forall i :: 0 <= i < |headers| ==> sanitized[i].key == headers[i].key
    ensures forall i :: 0 <= i < |headers| ==>
      sanitized[i].val == if Lower(headers[i].key) in SensitiveHeaders then Redacted else headers[i].val
  {
    sanitized := headers;
    var i := 0;
    while i < |headers|
      invariant 0 <= i <= |headers|
      invariant |sanitized| == |headers|
      invariant forall j :: 0 <= j < |headers| ==> sanitized[j].key == headers[j].key
      invariant forall j :: 0 <= j < i ==>
        sanitized[j].val == if Lower(headers[j].key) in SensitiveHeaders then Redacted else headers[j].val
      invariant forall j :: i <= j < |headers| ==> sanitized[j] == headers[j]
    {
      if Lower(headers[i].key) in SensitiveHeaders {
        assert DistinctKeys(sanitized) by {
          forall a, b | 0 <= a < b < |sanitized| ensures sanitized[a].key != sanitized[b].key {
            assert headers[a].key != headers[b].key;
          }
        }
        StoreExisting(sanitized, i, Redacted);
        sanitized := Store(sanitized, headers[i].key, Redacted);
      }
      i := i + 1;
    }
  }

  /* ---------- flatten_json_data ---------- */

  /** `f"{parent_key}{sep}{k}" if parent_key else k` */
  function ChildKey(parent: string, sep: string, k: string): string {
    if parent != [] then parent + sep + k else k
  }

  /** `f"{key}{sep}{i}"` */
  function IndexKey(key: string, sep: string, i: nat): string {
    key + sep + NatToString(i)
  }

  /** `dict(items)`: a later pair overwrites the value of an earlier one with
      the same key, which keeps its place. */
  function DictOf(items: seq<Entry>): seq<Entry> {
    StoreAll([], items)
  }

  /** Storing the pairs one after the other into `acc`. */
  function StoreAll(acc: seq<Entry>, items: seq<Entry>): seq<Entry>
    decreases |items|
  {
    if items == [] then acc else StoreAll(Store(acc, items[0].key, items[0].val), items[1..])
  }

  /** The flattened dict for `data` under the key path `parent`. */
  function Flatten(data: Value, parent: string, sep: string): seq<Entry>
    decreases data, 2
  {
    DictOf(FlatItems(data, parent, sep))
  }

  /** The `items` list `flatten_json_data` builds before `dict(items)`. */
  function FlatItems(data: Value, parent: string, sep: string): seq<Entry>
    decreases data, 1
  {
    match data
    case VDict(entries) => EntryItems(entries, parent, sep)
    case VList(xs) => IndexItems(xs, parent, sep)
    case _ => [Entry(parent, data)]
  }

  /** The pairs the dict branch contributes, entry by entry. */
  function EntryItems(entries: seq<Entry>, parent: string, sep: string): seq<Entry>
    decreases entries, 0
  {
    if entries == [] then []
    else
      EntryItems(entries[..|entries| - 1], parent, sep) + EntryPairs(entries[|entries| - 1], parent, sep)
  }

  /** The pairs one dict entry contributes. */
  function EntryPairs(e: Entry, parent: string, sep: string): seq<Entry>
    decreases e, 3
  {
    var k := ChildKey(parent, sep, e.key);
    match e.val
    case VDict(_) => Flatten(e.val, k, sep)
    case VList(xs) => IndexItems(xs, k, sep)
    case _ => [Entry(k, e.val)]
  }

  /** The pairs a list contributes under `key`, item by item. */
  function IndexItems(xs: seq<Value>, key: string, sep: string): seq<Entry>
    decreases xs, 0
  {
    if xs == [] then []
    else IndexItems(xs[..|xs| - 1], key, sep) + Flatten(xs[|xs| - 1], IndexKey(key, sep, |xs| - 1), sep)
  }

  /** No value of a flattened dict is a dict or a list. */
  predicate Leaves(pairs: seq<Entry>) {
    forall i :: 0 <= i < |pairs| ==> !pairs[i].val.IsContainer()
  }

  /** `dict(items)` holds distinct keys, the keys of the pairs. */
  lemma {:induction false} StoreAllKeys(acc: seq<Entry>, items: seq<Entry>)
    requires DistinctKeys(acc)
    ensures DistinctKeys(StoreAll(acc, items))
    ensures forall k :: k in Keys(StoreAll(acc, items)) <==> k in Keys(acc) || k in Keys(items)
    decreases |items|
  {
    if items != [] {
      var next := Store(acc, items[0].key, items[0].val);
      StoreDistinct(acc, items[0].key, items[0].val);
      StoreAllKeys(next, items[1..]);
      assert Keys(items) == [items[0].key] + Keys(items[1..]);
    }
  }

  /** Building a dict keeps only values that were among the pairs or already in it. */
  lemma {:induction false} StoreAllLeaves(acc: seq<Entry>, items: seq<Entry>)
    requires Leaves(acc) && Leaves(items)
    ensures Leaves(StoreAll(acc, items))
    decreases |items|
  {
    if items != [] {
      var next := Store(acc, items[0].key, items[0].val);
      StoreValues(acc, items[0].key, items[0].val);
      assert Leaves(next);
      StoreAllLeaves(next, items[1..]);
    }
  }

  /** Pairs with distinct keys, stored into a dict without those keys, are appended as they are. */
  lemma {:induction false} StoreAllFresh(acc: seq<Entry>, items: seq<Entry>)
    requires DistinctKeys(acc + items)
    ensures StoreAll(acc, items) == acc + items
    decreases |items|
  {
    if items != [] {
      FreshHead(acc, items);
      StoreNew(acc, items[0].key, items[0].val);
      StoreAllFresh(acc + [items[0]], items[1..]);
    }
  }

  lemma FreshHead(acc: seq<Entry>, items: seq<Entry>)
    requires items != [] && DistinctKeys(acc + items)
    ensures items[0].key !in Keys(acc)
    ensures (acc + [items[0]]) + items[1..] == acc + items
  {
    assert (acc + [items[0]]) + items[1..] == acc + items;
    var whole := acc + items;
    forall j | 0 <= j < |acc| ensures Keys(acc)[j] != items[0].key {
      assert whole[j] == acc[j] && whole[|acc|] == items[0];
    }
  }

  lemma {:induction false} FlattenLeaves(data: Value, parent: string, sep: string)
    ensures Leaves(Flatten(data, parent, sep))
    decreases data, 2
  {
    FlatItemsLeaves(data, parent, sep);
    StoreAllLeaves([], FlatItems(data, parent, sep));
  }

  lemma {:induction false} FlatItemsLeaves(data: Value, parent: string, sep: string)
    ensures Leaves(FlatItems(data, parent, sep))
    decreases data, 1
  {
    match data {
      case VDict(entries) => EntryItemsLeaves(entries, parent, sep);
      case VList(xs) => IndexItemsLeaves(xs, parent, sep);
      case _ =>
    }
  }

  lemma {:induction false} EntryItemsLeaves(entries: seq<Entry>, parent: string, sep: string)
    ensures Leaves(EntryItems(entries, parent, sep))
    decreases entries, 0
  {
    if entries != [] {
      EntryItemsLeaves(entries[..|entries| - 1], parent, sep);
      EntryPairsLeaves(entries[|entries| - 1], parent, sep);
    }
  }

  lemma {:induction false} EntryPairsLeaves(e: Entry, parent: string, sep: string)
    ensures Leaves(EntryPairs(e, parent, sep))
    decreases e, 3
  {
    var k := ChildKey(parent, sep, e.key);
    match e.val {
      case VDict(_) => FlattenLeaves(e.val, k, sep);
      case VList(xs) => IndexItemsLeaves(xs, k, sep);
      case _ =>
    }
  }

  lemma {:induction false} IndexItemsLeaves(xs: seq<Value>, key: string, sep: string)
    ensures Leaves(IndexItems(xs, key, sep))
    decreases xs, 0
  {
    if xs != [] {
      IndexItemsLeaves(xs[..|xs| - 1], key, sep);
      FlattenLeaves(xs[|xs| - 1], IndexKey(key, sep, |xs| - 1), sep);
    }
  }

  /** The flattened dict has distinct keys and no dict or list values. */
  lemma FlattenIsOneLevel(data: Value, parent: string, sep: string)
    ensures DistinctKeys(Flatten(data, parent, sep))
    ensures Leaves(Flatten(data, parent, sep))
  {
    StoreAllKeys([], FlatItems(data, parent, sep));
    FlattenLeaves(data, parent, sep);
  }

  lemma {:induction false} ScalarEntryItems(entries: seq<Entry>, sep: string)
    requires Leaves(entries)
    ensures EntryItems(entries, "", sep) == entries
  {
    if entries != [] {
      var init := entries[..|entries| - 1];
      assert Leaves(init);
      ScalarEntryItems(init, sep);
      assert init + [entries[|entries| - 1]] == entries;
    }
  }

  /** A dict whose values are all scalars flattens to itself. */
  lemma ScalarDictFlattensToItself(entries: seq<Entry>, sep: string)
    requires DistinctKeys(entries) && Leaves(entries)
    ensures Flatten(VDict(entries), "", sep) == entries
  {
    ScalarEntryItems(entries, sep);
    assert [] + entries == entries;
    StoreAllFresh([], entries);
  }

  lemma DictOfSingle(pair: Entry)
    ensures DictOf([pair]) == [pair]
  {
    assert [pair][1..] == [];
    assert Store([], pair.key, pair.val) == [pair];
    assert StoreAll([], [pair]) == StoreAll([pair], []);
  }

  /** The entries of `inner` with their keys put under `k`. */
  function KeysUnder(k: string, sep: string, inner: seq<Entry>): (r: seq<Entry>)
    ensures |r| == |inner|
  {
    seq(|inner|, i requires 0 <= i < |inner| => Entry(ChildKey(k, sep, inner[i].key), inner[i].val))
  }

  /** The pairs of a list of scalars under `k`: `k<sep>0`, `k<sep>1`, … */
  function Indexed(k: string, sep: string, xs: seq<Value>): (r: seq<Entry>)
    ensures |r| == |xs|
  {
    seq(|xs|, i requires 0 <= i < |xs| => Entry(IndexKey(k, sep, i), xs[i]))
  }

  lemma {:induction false} ScalarEntryItemsUnder(entries: seq<Entry>, k: string, sep: string)
    requires Leaves(entries)
    ensures EntryItems(entries, k, sep) == KeysUnder(k, sep, entries)
  {
    if entries != [] {
      var init := entries[..|entries| - 1];
      assert Leaves(init);
      ScalarEntryItemsUnder(init, k, sep);
      assert KeysUnder(k, sep, entries) == KeysUnder(k, sep, init) + [KeysUnder(k, sep, entries)[|entries| - 1]];
    }
  }

  lemma {:induction false} ScalarIndexItems(xs: seq<Value>, k: string, sep: string)
    requires forall i :: 0 <= i < |xs| ==> !xs[i].IsContainer()
    ensures IndexItems(xs, k, sep) == Indexed(k, sep, xs)
  {
    if xs != [] {
      var init := xs[..|xs| - 1];
      ScalarIndexItems(init, k, sep);
      var pair := Entry(IndexKey(k, sep, |xs| - 1), xs[|xs| - 1]);
      DictOfSingle(pair);
      assert Flatten(xs[|xs| - 1], IndexKey(k, sep, |xs| - 1), sep) == [pair];
      assert Indexed(k, sep, xs) == Indexed(k, sep, init) + [pair];
    }
  }

  lemma KeysUnderDistinct(k: string, sep: string, inner: seq<Entry>)
    requires DistinctKeys(inner)
    ensures DistinctKeys(KeysUnder(k, sep, inner))
  {
    var r := KeysUnder(k, sep, inner);
    forall i, j | 0 <= i < j < |r| ensures r[i].key != r[j].key {
      if k != [] {
        var p := k + sep;
        assert r[i].key == p + inner[i].key && r[j].key == p + inner[j].key;
        assert r[i].key[|p|..] == inner[i].key;
        assert r[j].key[|p|..] == inner[j].key;
      }
    }
  }

  lemma IndexedDistinct(k: string, sep: string, xs: seq<Value>)
    ensures DistinctKeys(Indexed(k, sep, xs))
  {
    var r := Indexed(k, sep, xs);
    forall i, j | 0 <= i < j < |r| ensures r[i].key != r[j].key {
      if r[i].key == r[j].key {
        var p := k + sep;
        assert r[i].key == p + NatToString(i) && r[j].key == p + NatToString(j);
        assert (p + NatToString(i))[|p|..] == NatToString(i);
        assert (p + NatToString(j))[|p|..] == NatToString(j);
        NatToStringInjective(i, j);
      }
    }
  }

  /** A dict of scalars under key `k` flattens to its entries with the keys
      joined to `k` by `sep` (kept as they are when `k` is empty), in order. */
  lemma NestedKeysJoined(k: string, inner: seq<Entry>, sep: string)
    requires DistinctKeys(inner) && Leaves(inner)
    ensures Flatten(VDict([Entry(k, VDict(inner))]), "", sep) == KeysUnder(k, sep, inner)
    ensures forall i :: 0 <= i < |inner| ==>
      Lookup(Flatten(VDict([Entry(k, VDict(inner))]), "", sep), ChildKey(k, sep, inner[i].key)) == Some(inner[i].val)
  {
    var outer := [Entry(k, VDict(inner))];
    var joined := KeysUnder(k, sep, inner);
    ScalarEntryItemsUnder(inner, k, sep);
    KeysUnderDistinct(k, sep, inner);
    assert [] + joined == joined;
    StoreAllFresh([], joined);
    assert Flatten(VDict(inner), k, sep) == joined;
    assert outer[..0] == [];
    assert EntryItems(outer, "", sep) == joined;
    forall i | 0 <= i < |inner|
      ensures Lookup(joined, ChildKey(k, sep, inner[i].key)) == Some(inner[i].val)
    {
      LookupDistinct(joined, i);
    }
  }

  lemma ListFlattensToIndexed(k: string, xs: seq<Value>, sep: string)
    requires forall i :: 0 <= i < |xs| ==> !xs[i].IsContainer()
    ensures Flatten(VDict([Entry(k, VList(xs))]), "", sep) == Indexed(k, sep, xs)
  {
    var outer := [Entry(k, VList(xs))];
    var items := Indexed(k, sep, xs);
    ScalarIndexItems(xs, k, sep);
    IndexedDistinct(k, sep, xs);
    assert [] + items == items;
    StoreAllFresh([], items);
    assert outer[..0] == [];
    assert EntryItems(outer, "", sep) == EntryItems([], "", sep) + EntryPairs(outer[0], "", sep);
  }

  /** A list of scalars under key `k` flattens to the keys `k<sep>0`, `k<sep>1`, …
      holding the items in order. */
  lemma ListItemIndexed(k: string, xs: seq<Value>, sep: string)
    requires forall i :: 0 <= i < |xs| ==> !xs[i].IsContainer()
    ensures Flatten(VDict([Entry(k, VList(xs))]), "", sep) == Indexed(k, sep, xs)
    ensures forall i :: 0 <= i < |xs| ==>
      Lookup(Flatten(VDict([Entry(k, VList(xs))]), "", sep), k + sep + NatToString(i)) == Some(xs[i])
  {
    var items := Indexed(k, sep, xs);
    ListFlattensToIndexed(k, xs, sep);
    IndexedDistinct(k, sep, xs);
    forall i | 0 <= i < |xs|
      ensures Lookup(items, k + sep + NatToString(i)) == Some(xs[i])
    {
      LookupDistinct(items, i);
    }
  }

  /** `flatten_json_data(data, parent_key, sep)` */
  method FlattenJsonData(data: Value, parent: string, sep: string) returns (flat: seq<Entry>)
    ensures flat == Flatten(data, parent, sep)
    decreases data, 3
  {
    var items: seq<Entry> := [];
    match data {
      case VDict(entries) =>
        items := ExtendWithEntries(items, entries, parent, sep);
      case VList(xs) =>
        items := ExtendWithItems(items, xs, parent, sep);
      case _ =>
        items := [Entry(parent, data)];
    }
    assert items == FlatItems(data, parent, sep);
    flat := DictOf(items);
  }

  /** The dict branch: `for k, v in data.items()`. */
  method ExtendWithEntries(items: seq<Entry>, entries: seq<Entry>, parent: string, sep: string) returns (r: seq<Entry>)
    ensures r == items + EntryItems(entries, parent, sep)
    decreases entries, 2
  {
    r := items;
    var i := 0;
    while i < |entries|
      invariant 0 <= i <= |entries|
      invariant r == items + EntryItems(entries[..i], parent, sep)
    {
      ghost var prefix := entries[..i + 1];
      assert prefix[..i] == entries[..i] && prefix[i] == entries[i];
      r := ExtendWithEntry(r, entries[i], parent, sep);
      i := i + 1;
    }
    assert entries[..i] == entries;
  }

  /** One entry: recurse into a dict, index a list, or keep a scalar. */
  method ExtendWithEntry(items: seq<Entry>, e: Entry, parent: string, sep: string) returns (r: seq<Entry>)
    ensures r == items + EntryPairs(e, parent, sep)
    decreases e, 1
  {
    var k := ChildKey(parent, sep, e.key);
    match e.val {
      case VDict(_) =>
        var sub := FlattenJsonData(e.val, k, sep);
        r := items + sub;
      case VList(xs) =>
        r := ExtendWithItems(items, xs, k, sep);
      case _ =>
        r := items + [Entry(k, e.val)];
    }
  }

  /** `for i, item in enumerate(xs): items.extend(flatten_json_data(item, f"{key}{sep}{i}", sep).items())` */
  method ExtendWithItems(items: seq<Entry>, xs: seq<Value>, key: string, sep: string) returns (r: seq<Entry>)
    ensures r == items + IndexItems(xs, key, sep)
    decreases xs, 1
  {
    r := items;
    var j := 0;
    while j < |xs|
      invariant 0 <= j <= |xs|
      invariant r == items + IndexItems(xs[..j], key, sep)
    {
      var sub := FlattenJsonData(xs[j], IndexKey(key, sep, j), sep);
      ghost var prefix := xs[..j + 1];
      assert prefix[..j] == xs[..j] && prefix[j] == xs[j];
      assert IndexItems(prefix, key, sep) == IndexItems(xs[..j], key, sep) + sub;
      r := r + sub;
      j := j + 1;
    }
    assert xs[..j] == xs;
  }
  /* ---------- detect_file_type ---------- */

  datatype FileType = JSON | CSV | TXT | XML | TSV | HTML | BINARY
  {
    /** `FileType.value`, also the file extension. */
    function Label(): string {
      match this
      case JSON => "json"
      case CSV => "csv"
      case TXT => "txt"
      case XML => "xml"
      case TSV => "tsv"
      case HTML => "html"
      case BINARY => "bin"
    }
  }

  /** The content-type rules, tried in order on the lower-cased header value:
      each type is chosen exactly when its media type appears and no earlier one does. */
  function FromContentType(ct: string): (r: Option<FileType>)
    ensures r == Some(JSON) <==> Contains(ct, "application/json")
    ensures r == Some(CSV) <==> !Contains(ct, "application/json") && Contains(ct, "text/csv")
    ensures r == Some(XML) <==>
      !Contains(ct, "application/json") && !Contains(ct, "text/csv")
      && (Contains(ct, "text/xml") || Contains(ct, "application/xml"))
    ensures r == Some(HTML) <==>
      !Contains(ct, "application/json") && !Contains(ct, "text/csv") && !Contains(ct, "text/xml")
      && !Contains(ct, "application/xml") && Contains(ct, "text/html")
    ensures r == Some(TSV) <==>
      !Contains(ct, "application/json") && !Contains(ct, "text/csv") && !Contains(ct, "text/xml")
      && !Contains(ct, "application/xml") && !Contains(ct, "text/html") && Contains(ct, "text/tab-separated-values")
    ensures r.None? <==>
      !Contains(ct, "application/json") && !Contains(ct, "text/csv") && !Contains(ct, "text/xml")
      && !Contains(ct, "application/xml") && !Contains(ct, "text/html") && !Contains(ct, "text/tab-separated-values")
    ensures r != Some(TXT) && r != Some(BINARY)
  {
    if Contains(ct, "application/json") then Some(JSON)
    else if Contains(ct, "text/csv") then Some(CSV)
    else if Contains(ct, "text/xml") || Contains(ct, "application/xml") then Some(XML)
    else if Contains(ct, "text/html") then Some(HTML)
    else if Contains(ct, "text/tab-separated-values") then Some(TSV)
    else None
  }

  /** The fallback on the data itself; it never answers HTML or TSV. */
  function FromContent(data: Value): (r: FileType)
    ensures r != HTML && r != TSV
    ensures data.IsContainer() ==> r == JSON
    ensures data.VStr? ==> (r == XML <==> StartsWith(Strip(data.s), "<") && EndsWith(Strip(data.s), ">"))
    ensures data.VStr? ==> (r == CSV <==>
      !(StartsWith(Strip(data.s), "<") && EndsWith(Strip(data.s), ">")) && ',' in data.s && '\n' in data.s)
    ensures data.VStr? ==> (r == TXT <==>
      !(StartsWith(Strip(data.s), "<") && EndsWith(Strip(data.s), ">")) && !(',' in data.s && '\n' in data.s))
    ensures data.VStr? ==> r != BINARY && r != JSON
    ensures !data.IsContainer() && !data.VStr? ==> r == BINARY
  {
    match data
    case VDict(_) => JSON
    case VList(_) => JSON
    case VStr(s) =>
      var t := Strip(s);
      if StartsWith(t, "<") && EndsWith(t, ">") then XML
      else if ',' in s && '\n' in s then CSV
      else TXT
    case _ => BINARY
  }

  /** `response_headers.get('content-type', '')` on the plain dict the
      collector keeps: the key must be spelled exactly `content-type`. */
  function ContentTypeAsWritten(headers: seq<Entry>): string {
    Str(Lookup(headers, "content-type").GetOr(VStr("")))
  }

  /** The value of the first header whose name is `name` up to case. */
  function HeaderValue(headers: seq<Entry>, name: string): (r: string)
    ensures (forall i :: 0 <= i < |headers| ==> Lower(headers[i].key) != name) ==> r == ""
  {
    if headers == [] then ""
    else if Lower(headers[0].key) == name then Str(headers[0].val)
    else HeaderValue(headers[1..], name)
  }

  /** The content type the server sent, whatever the case of the header name. */
  function ContentTypeField(headers: seq<Entry>): string {
    HeaderValue(headers, "content-type")
  }

  function Detect(data: Value, headers: seq<Entry>, contentType: string): FileType {
    if headers != [] then
      match FromContentType(Lower(contentType))
      case Some(t) => t
      case None => FromContent(data)
    else FromContent(data)
  }

  /** `detect_file_type` as written: the header lookup is case-sensitive. */
  function DetectFileTypeAsWritten(data: Value, headers: seq<Entry>): (r: FileType)
    ensures FromContentType(Lower(ContentTypeAsWritten(headers))).Some? && headers != [] ==>
      r == FromContentType(Lower(ContentTypeAsWritten(headers))).value
    ensures FromContentType(Lower(ContentTypeAsWritten(headers))).None? ==> r == FromContent(data)
  {
    Detect(data, headers, ContentTypeAsWritten(headers))
  }

  /** `detect_file_type` with the header found case-insensitively, as HTTP
      header names are (section 5.1 of RFC 9110). */
  function DetectFileType(data: Value, headers: seq<Entry>): (r: FileType)
    ensures FromContentType(Lower(ContentTypeField(headers))).Some? && headers != [] ==>
      r == FromContentType(Lower(ContentTypeField(headers))).value
    ensures FromContentType(Lower(ContentTypeField(headers))).None? ==> r == FromContent(data)
  {
    Detect(data, headers, ContentTypeField(headers))
  }

  /** A server that spells the header `Content-Type` is not heard by the
      detector as written: a JSON response whose body looks like CSV text is
      saved as CSV. */
  lemma CapitalisedContentTypeIgnored()
    ensures var headers := [Entry("Content-Type", VStr("application/json"))];
      var body := VStr("a,b\n1,2");
      DetectFileTypeAsWritten(body, headers) == CSV && DetectFileType(body, headers) == JSON
  {
    var headers := [Entry("Content-Type", VStr("application/json"))];
    var body := VStr("a,b\n1,2");
    assert FromContent(body) == CSV by { CsvLikeBody(); }
    assert DetectFileTypeAsWritten(body, headers) == CSV by {
      assert ContentTypeAsWritten(headers) == "" by { CapitalisedNotFound(); }
      assert Lower("") == "";
    }
    assert DetectFileType(body, headers) == JSON by { CapitalisedFound(); }
  }

  lemma CapitalisedNotFound()
    ensures Lookup([Entry("Content-Type", VStr("application/json"))], "content-type") == None
  {
    assert "Content-Type"[0] != "content-type"[0];
  }

  lemma CapitalisedFound()
    ensures FromContentType(Lower(ContentTypeField([Entry("Content-Type", VStr("application/json"))]))) == Some(JSON)
  {
    CapitalisedField();
    JsonContentType();
  }

  lemma CapitalisedField()
    ensures ContentTypeField([Entry("Content-Type", VStr("application/json"))]) == "application/json"
  {
    LowerCapitalised();
  }

  lemma JsonContentType()
    ensures FromContentType(Lower("application/json")) == Some(JSON)
  {
    LowerJson();
    JsonMediaType("application/json");
  }

  lemma JsonMediaType(ct: string)
    requires "application/json" <= ct
    ensures FromContentType(ct) == Some(JSON)
  {
    ContainsAt(ct, "application/json", 0);
  }

  lemma LowerCapitalised()
    ensures Lower("Content-Type") == "content-type"
  {
    LowerEq("Content-Type", "content-type");
  }

  lemma LowerJson()
    ensures Lower("application/json") == "application/json"
  {
    LowerEq("application/json", "application/json");
  }

  lemma CsvLikeBody()
    ensures FromContent(VStr("a,b\n1,2")) == CSV
  {
    var s := "a,b\n1,2";
    assert Strip(s) == s by { StripPlain(s); }
    assert !StartsWith(s, "<") by { assert s[0] == 'a'; }
    assert ',' in s by { assert s[1] == ','; }
    assert '\n' in s by { assert s[3] == '\n'; }
  }

  /** The lower-case spelling `content-type` is its own lower case. */
  lemma ContentTypeLower()
    ensures Lower("content-type") == "content-type"
  {
    LowerEq("content-type", "content-type");
  }

  /** When the header name is spelled in lower case, both detectors agree. */
  lemma DetectorsAgreeOnLowerCaseHeader(data: Value, headers: seq<Entry>)
    requires forall i :: 0 <= i < |headers| ==> (Lower(headers[i].key) == "content-type" ==> headers[i].key == "content-type")
    ensures DetectFileTypeAsWritten(data, headers) == DetectFileType(data, headers)
  {
    ContentTypeLower();
    ExactLookupIsHeaderValue(headers, "content-type");
  }

  /** An exact-name lookup finds what the case-insensitive search finds when
      every header spelled like `name` up to case is spelled exactly `name`. */
  lemma {:induction false} ExactLookupIsHeaderValue(headers: seq<Entry>, name: string)
    requires Lower(name) == name
    requires forall i :: 0 <= i < |headers| ==> (Lower(headers[i].key) == name ==> headers[i].key == name)
    ensures Str(Lookup(headers, name).GetOr(VStr(""))) == HeaderValue(headers, name)
  {
    if headers != [] {
      var k := headers[0].key;
      if Lower(k) != name {
        assert k != name;
        assert forall i :: 0 <= i < |headers[1..]| ==> headers[1..][i] == headers[i + 1];
        ExactLookupIsHeaderValue(headers[1..], name);
      } else {
        assert k == name by { assert Lower(headers[0].key) == name; }
      }
    }
  }

  /** Unlike the persistence detector, the collector has no TSV rule: text
      with tabs and line breaks but no comma and no `<` is plain text here
      and TSV there. */
  lemma TabTextDetectorsDiffer(s: string)
    requires s != [] && !IsSpace(s[0]) && !IsSpace(s[|s| - 1])
    requires '\t' in s && '\n' in s && ',' !in s && '<' !in s
    ensures FromContent(VStr(s)) == TXT
    ensures Persistence.AutoDetectFormat(VStr(s), "") == Persistence.TSV
  {
    StripPlain(s);
    NoAngleAfterLower(s);
  }

  lemma NoAngleAfterLower(s: string)
    requires s != [] && '<' !in s
    ensures !StartsWith(Lower(s), "<") && !Contains(Lower(s), "<html")
  {
    var t := Lower(s);
    forall i | 0 <= i < |t| ensures t[i] != '<' {
      assert s[i] != '<';
    }
    if Contains(t, "<html") {
      ContainsHead(t, "<html");
    }
  }

  /* ---------- save_to_file naming and table shaping ---------- */

  /** `api_config.get('file_prefix', api_config.get('csv_prefix', 'data'))` */
  function FilePrefix(config: seq<Entry>): (r: Value)
    ensures "file_prefix" in Keys(config) ==> Some(r) == Lookup(config, "file_prefix")
    ensures "file_prefix" !in Keys(config) && "csv_prefix" in Keys(config) ==> Some(r) == Lookup(config, "csv_prefix")
    ensures "file_prefix" !in Keys(config) && "csv_prefix" !in Keys(config) ==> r == VStr("data")
  {
    var fallback := Lookup(config, "csv_prefix").GetOr(VStr("data"));
    GetOrLookup(config, "csv_prefix", VStr("data"));
    GetOrLookup(config, "file_prefix", fallback);
    Lookup(config, "file_prefix").GetOr(fallback)
  }

  /** `f"{file_prefix}_{timestamp}_{unique_id}.{file_type.value}"`, where the
      unique id is the first eight characters of the uuid text. */
  function FileName(config: seq<Entry>, now: Clock, uuid: string, t: FileType): (r: string)
    requires now.Valid()
    ensures StartsWith(r, Str(FilePrefix(config)) + "_")
    ensures EndsWith(r, "." + t.Label())
    ensures |uuid| >= 8 ==> |r| == |Str(FilePrefix(config))| + 1 + 15 + 1 + 8 + 1 + |t.Label()|
    ensures r == Str(FilePrefix(config)) + "_" + CompactStamp(now) + "_" + Take(uuid, 8) + ("." + t.Label())
    ensures var p := |Str(FilePrefix(config))|;
      && ParseCompactStamp(r[p + 1..p + 16]) == Some(now.(microsecond := 0))
      && r[p + 16] == '_'
      && (|uuid| >= 8 ==> r[p + 17..p + 25] == uuid[..8])
  {
    var prefix := Str(FilePrefix(config));
    var r := prefix + "_" + CompactStamp(now) + "_" + Take(uuid, 8) + ("." + t.Label());
    StampedNameParts(prefix, now, Take(uuid, 8), "." + t.Label());
    r
  }

  /** Where the parts of `prefix_stamp_id` and a tail stand. */
  lemma StampedNameParts(prefix: string, now: Clock, id: string, tail: string)
    requires now.Valid()
    ensures var r := prefix + "_" + CompactStamp(now) + "_" + id + tail;
      var p := |prefix|;
      && |r| == p + 1 + 15 + 1 + |id| + |tail|
      && StartsWith(r, prefix + "_") && EndsWith(r, tail)
      && ParseCompactStamp(r[p + 1..p + 16]) == Some(now.(microsecond := 0))
      && r[p + 16] == '_' && r[p + 17..p + 17 + |id|] == id
  {
    var stamp := CompactStamp(now);
    var head := prefix + "_";
    var r := prefix + "_" + stamp + "_" + id + tail;
    assert r == head + (stamp + "_" + id + tail);
    assert r[..|head|] == head;
    assert r[|r| - |tail|..] == tail;
    assert r[|head|..|head| + 15] == stamp;
    assert r[|head| + 16..|head| + 16 + |id|] == id;
    CompactStampRoundTrip(now);
  }

  /** `any(isinstance(v, (list, dict)) for v in data.values())` */
  predicate HasNested(entries: seq<Entry>) {
    exists i :: 0 <= i < |entries| && entries[i].val.IsContainer()
  }

  /** The records `pd.DataFrame` is built from in `_save_csv_file` and `_save_tsv_file`. */
  function FrameRecords(data: Value): (r: seq<Value>)
    ensures data.VList? ==> r == data.items
    ensures data.VDict? ==> |r| == 1 && r[0].VDict?
    ensures data.VDict? && !HasNested(data.entries) ==> r == [data]
    ensures data.VDict? && HasNested(data.entries) ==> r == [VDict(Flatten(data, "", "_"))]
    ensures !data.IsContainer() ==> r == [VDict([Entry("value", data)])]
  {
    match data
    case VList(items) => items
    case VDict(entries) => if HasNested(entries) then [VDict(Flatten(data, "", "_"))] else [data]
    case _ => [VDict([Entry("value", data)])]
  }

  /** A dict is written as a single row without nested values. */
  lemma DictRecordIsFlat(entries: seq<Entry>)
    ensures var r := FrameRecords(VDict(entries));
      |r| == 1 && r[0].VDict? && Leaves(r[0].entries)
  {
    if HasNested(entries) {
      FlattenLeaves(VDict(entries), "", "_");
    }
  }

  /** A record as a row: a dict's own entries, a list spread over the
      columns `0`, `1`, …, anything else in column `0`. */
  function RowOf(record: Value): (r: seq<Entry>)
    ensures record.VDict? ==> r == record.entries
    ensures record.VList? ==>
      && |r| == |record.items|
      && forall i :: 0 <= i < |r| ==> r[i] == Entry(NatToString(i), record.items[i])
    ensures !record.IsContainer() ==> r == [Entry("0", record)]
  {
    match record
    case VDict(entries) => entries
    case VList(items) => seq(|items|, i requires 0 <= i < |items| => Entry(NatToString(i), items[i]))
    case _ => [Entry("0", record)]
  }

  /** `df['api_name'] = …; df['timestamp'] = …; df['unique_id'] = …` on one row. */
  function WithMetadataColumns(row: seq<Entry>, apiName: Value, timestamp: string, uniqueId: string): seq<Entry> {
    Store(Store(Store(row, "api_name", apiName), "timestamp", VStr(timestamp)), "unique_id", VStr(uniqueId))
  }

  /** The rows written to the CSV or TSV file. */
  function ShapedRows(data: Value, apiName: Value, timestamp: string, uniqueId: string): (r: seq<seq<Entry>>)
    ensures |r| == |FrameRecords(data)|
  {
    var records := FrameRecords(data);
    seq(|records|, i requires 0 <= i < |records| => WithMetadataColumns(RowOf(records[i]), apiName, timestamp, uniqueId))
  }

  /** Every written row carries the three metadata columns, and every other
      column of its record unchanged. */
  lemma ShapedRowsCarryMetadata(data: Value, apiName: Value, timestamp: string, uniqueId: string, i: nat, k: string)
    requires i < |FrameRecords(data)|
    ensures var row := ShapedRows(data, apiName, timestamp, uniqueId)[i];
      && Lookup(row, "api_name") == Some(apiName)
      && Lookup(row, "timestamp") == Some(VStr(timestamp))
      && Lookup(row, "unique_id") == Some(VStr(uniqueId))
      && (k !in ["api_name", "timestamp", "unique_id"] ==> Lookup(row, k) == Lookup(RowOf(FrameRecords(data)[i]), k))
  {
    var base := RowOf(FrameRecords(data)[i]);
    var r1 := Store(base, "api_name", apiName);
    var r2 := Store(r1, "timestamp", VStr(timestamp));
    StoreOther(r2, "unique_id", VStr(uniqueId), "api_name");
    StoreOther(r1, "timestamp", VStr(timestamp), "api_name");
    StoreOther(r2, "unique_id", VStr(uniqueId), "timestamp");
    if k !in ["api_name", "timestamp", "unique_id"] {
      StoreOther(r2, "unique_id", VStr(uniqueId), k);
      StoreOther(r1, "timestamp", VStr(timestamp), k);
      StoreOther(base, "api_name", apiName, k);
    }
  }

  /** The `metadata` part of a `save_to_file` result. */
  datatype FileMetadata = FileMetadata(apiName: Value, timestamp: string, uniqueId: string, fileSize: nat)

  /** A `save_to_file` result. */
  datatype FileResult = FileResult(filePath: string, fileType: FileType, rawData: Value, metadata: FileMetadata)

  /** What `save_to_file` sees of the outside world: the clock at the two
      `datetime.now()` calls, the uuid, the size of the written file, and an
      exception raised while writing it. */
  datatype SaveEnv = SaveEnv(now: Clock, nowIso: string, uuid: string, fileSize: nat, writeError: Option<string>)

  /** `base_output_dir / api_config['output_folder']`: pathlib joins only a
      string, an absolute folder replaces the base, and an empty one leaves it. */
  function OutputFolder(baseDir: string, folder: Value): (r: Result<string>)
    ensures r.Ok? <==> folder.VStr?
    ensures r.Err? ==> r.error == "unsupported operand type(s) for /: 'PosixPath' and '" + folder.TypeName() + "'"
    ensures folder.VStr? && StartsWith(folder.s, "/") ==> r.value == folder.s
    ensures folder.VStr? && !StartsWith(folder.s, "/") ==> StartsWith(r.value, baseDir) && EndsWith(r.value, folder.s)
  {
    match folder
    case VStr(f) =>
      if StartsWith(f, "/") then Ok(f)
      else if f == "" then Ok(baseDir)
      else
        var joined := baseDir + "/" + f;
        assert joined[..|baseDir|] == baseDir && joined[|joined| - |f|..] == f;
        Ok(joined)
    case _ => Err("unsupported operand type(s) for /: 'PosixPath' and '" + folder.TypeName() + "'")
  }

  /** `save_to_file`: a missing `output_folder` or `name` in the config raises
      `KeyError`, and a folder that is not a string raises `TypeError`. */
  function SaveToFile(data: Value, config: seq<Entry>, fileType: Option<FileType>, headers: seq<Entry>,
                      baseDir: string, env: SaveEnv): (r: Result<FileResult>)
    requires env.now.Valid()
    ensures r.Ok? <==>
      && "output_folder" in Keys(config) && Lookup(config, "output_folder").value.VStr?
      && env.writeError.None? && "name" in Keys(config)
    ensures "output_folder" !in Keys(config) ==> r == Err("'output_folder'")
    ensures r.Ok? ==>
      && StartsWith(r.value.filePath, OutputFolder(baseDir, Lookup(config, "output_folder").value).value + "/")
      && r.value.fileType == (if fileType.Some? then fileType.value else DetectFileType(data, headers))
      && r.value.rawData == data
      && EndsWith(r.value.filePath, "/" + FileName(config, env.now, env.uuid, r.value.fileType))
      && EndsWith(r.value.filePath, "." + r.value.fileType.Label())
      && Some(r.value.metadata.apiName) == Lookup(config, "name")
      && r.value.metadata.uniqueId == Take(env.uuid, 8)
  {
    var t := if fileType.Some? then fileType.value else DetectFileType(data, headers);
    match Lookup(config, "output_folder")
    case None => Err("'output_folder'")
    case Some(folder) =>
      match OutputFolder(baseDir, folder)
      case Err(e) => Err(e)
      case Ok(dir) =>
      var name := FileName(config, env.now, env.uuid, t);
      var path := dir + ("/" + name);
      assert path[|dir|..] == "/" + name && path[..|dir| + 1] == dir + "/";
      PathKeepsExtension(path, name, "." + t.Label());
      if env.writeError.Some? then Err(env.writeError.value)
      else
        match Lookup(config, "name")
        case None => Err("'name'")
        case Some(apiName) =>
          Ok(FileResult(path, t, data, FileMetadata(apiName, env.nowIso, Take(env.uuid, 8), env.fileSize)))
  }

  /** `save_to_csv`: `save_to_file` forced to CSV, returning the path. */
  function SaveToCsv(data: Value, config: seq<Entry>, baseDir: string, env: SaveEnv): (r: Result<string>)
    requires env.now.Valid()
    ensures r.Ok? <==> SaveToFile(data, config, Some(CSV), [], baseDir, env).Ok?
    ensures r.Ok? ==> EndsWith(r.value, "." + CSV.Label())
  {
    var saved := SaveToFile(data, config, Some(CSV), [], baseDir, env);
    if saved.Err? then Err(saved.error) else Ok(saved.value.filePath)
  }

  lemma PathKeepsExtension(path: string, name: string, ext: string)
    requires EndsWith(path, "/" + name) && EndsWith(name, ext)
    ensures EndsWith(path, ext)
  {
    EndsWithAppend("/", name, ext);
    EndsWithTrans(path, "/" + name, ext);
  }

  /** `_save_xml_file` for anything but a string builds the tree with the
      collector's converter, whose tags are the dict keys as they are. */
  lemma CollectorXmlKeepsKeys(entries: seq<Entry>, i: nat)
    requires i < |entries|
    ensures Build(VDict(entries), "root", false).children[i].tag == entries[i].key
  {
    EntryNodesAt(entries, false, i);
  }

  /* ---------- run_all_apis / run_single_api ---------- */

  /** What `make_api_call` returns: the decoded body and the response headers. */
  datatype Response = Response(data: Value, headers: seq<Entry>)

  /** One entry of the result list. */
  datatype ApiResult =
    | Succeeded(apiName: Value, file: FileResult, responseHeaders: seq<Entry>)
    | Failed(apiName: Value, error: string)

  /** `api_config.get('name', 'unnamed_api')` */
  function ApiName(config: seq<Entry>): Value {
    Lookup(config, "name").GetOr(VStr("unnamed_api"))
  }

  /** The body of the `try` for one API; any exception becomes a `failed` entry. */
  function RunOne(config: seq<Entry>, call: seq<Entry> -> Result<Response>, baseDir: string, env: SaveEnv): (r: ApiResult)
    requires env.now.Valid()
    ensures r.apiName == ApiName(config)
    ensures r.Failed? <==> call(config).Err? || SaveToFile(call(config).value.data, config, None, call(config).value.headers, baseDir, env).Err?
  {
    match call(config)
    case Err(e) => Failed(ApiName(config), e)
    case Ok(response) =>
      match SaveToFile(response.data, config, None, response.headers, baseDir, env)
      case Err(e) => Failed(ApiName(config), e)
      case Ok(file) => Succeeded(ApiName(config), file, response.headers)
  }

  /** `run_all_apis`: `call` stands for `make_api_call`, `env(i)` for the
      clock, uuid and file system seen while saving the i-th API's data. */
  method RunAllApis(apis: seq<seq<Entry>>, call: seq<Entry> -> Result<Response>, baseDir: string, env: nat -> SaveEnv)
    returns (results: seq<ApiResult>)
    requires forall i: nat :: env(i).now.Valid()
    ensures |results| == |apis|
    ensures forall i :: 0 <= i < |apis| ==> results[i] == RunOne(apis[i], call, baseDir, env(i))
  {
    results := [];
    var i := 0;
    while i < |apis|
      invariant 0 <= i <= |apis|
      invariant |results| == i
      invariant forall j :: 0 <= j < i ==> results[j] == RunOne(apis[j], call, baseDir, env(j))
    {
      results := results + [RunOne(apis[i], call, baseDir, env(i))];
      i := i + 1;
    }
  }

  /** A failing API is recorded and the others still run: the i-th result
      names the i-th API and fails exactly when its own call or save does. */
  lemma RunAllApisIsolatesFailures(apis: seq<seq<Entry>>, call: seq<Entry> -> Result<Response>, baseDir: string,
                                   env: nat -> SaveEnv, results: seq<ApiResult>, i: nat)
    requires forall j: nat :: env(j).now.Valid()
    requires |results| == |apis| && forall j :: 0 <= j < |apis| ==> results[j] == RunOne(apis[j], call, baseDir, env(j))
    requires i < |apis| && call(apis[i]).Err?
    ensures results[i] == Failed(ApiName(apis[i]), call(apis[i]).error)
  {
  }

  /** `config.get('name') == api_name` */
  predicate Named(config: seq<Entry>, name: string) {
    Lookup(config, "name") == Some(VStr(name))
  }

  /** The loop with `break` that finds the first configuration with the name. */
  method FindApiConfig(apis: seq<seq<Entry>>, name: string) returns (found: Option<nat>)
    ensures found.None? <==> forall i :: 0 <= i < |apis| ==> !Named(apis[i], name)
    ensures found.Some? ==>
      && found.value < |apis|
      && Named(apis[found.value], name)
      && forall j :: 0 <= j < found.value ==> !Named(apis[j], name)
  {
    found := None;
    var i := 0;
    while i < |apis|
      invariant 0 <= i <= |apis|
      invariant forall j :: 0 <= j < i ==> !Named(apis[j], name)
    {
      if Named(apis[i], name) {
        return Some(i);
      }
      i := i + 1;
    }
  }

  /** `run_single_api`: an unknown name raises `ValueError`, which leaves the
      method; the run itself never raises. */
  method RunSingleApi(apis: seq<seq<Entry>>, name: string, call: seq<Entry> -> Result<Response>, baseDir: string, env: SaveEnv)
    returns (r: Result<ApiResult>)
    requires env.now.Valid()
    ensures r.Err? <==> forall i :: 0 <= i < |apis| ==> !Named(apis[i], name)
    ensures r.Err? ==> r.error == "API configuration not found for: " + name
    ensures r.Ok? ==>
      exists i :: && 0 <= i < |apis|
                  && Named(apis[i], name)
                  && (forall j :: 0 <= j < i ==> !Named(apis[j], name))
                  && r.value == RunOne(apis[i], call, baseDir, env)
    ensures r.Ok? ==> r.value.apiName == VStr(name)
  {
    var found := FindApiConfig(apis, name);
    if found.None? {
      return Err("API configuration not found for: " + name);
    }
    var config := apis[found.value];
    r := Ok(RunOne(config, call, baseDir, env));
  }
}
