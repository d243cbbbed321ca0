/** The Python objects that flow through the pipeline: decoded JSON
    (None, booleans, numbers, strings, lists, dicts), byte strings and
    pandas DataFrames, together with the handful of built-in operations the
    pipeline applies to them (`in`, `x[k]`, `d.get`, iteration, `float()`,
    `str()`). A Python exception is an `Err` carrying its message. */
module Json {
  import opened Base
  import opened Text

  newtype byte = x: int | 0 <= x < 256

  /** One `key: value` pair of a dict; a dict keeps its insertion order. */
  datatype Entry = Entry(key: string, val: Value)

  /** A pandas DataFrame: its column labels in order and one record per row. */
  datatype Table = Table(columns: seq<string>, rows: seq<map<string, Value>>)

  datatype Value =
    | VNull
    | VBool(b: bool)
    | VInt(i: int)
    | VReal(r: real)
    | VStr(s: string)
    | VBytes(bytes: seq<byte>)
    | VList(items: seq<Value>)
    | VDict(entries: seq<Entry>)
    | VTable(table: Table)
  {
    /** `type(x).__name__` */
    function TypeName(): string {
      match this
      case VNull => "NoneType"
      case VBool(_) => "bool"
      case VInt(_) => "int"
      case VReal(_) => "float"
      case VStr(_) => "str"
      case VBytes(_) => "bytes"
      case VList(_) => "list"
      case VDict(_) => "dict"
      case VTable(_) => "DataFrame"
    }

    /** `isinstance(x, (dict, list))` */
    predicate IsContainer() {
      VList? || VDict?
    }
  }

  function Keys(entries: seq<Entry>): (r: seq<string>)
    ensures |r| == |entries|
    ensures forall i :: 0 <= i < |entries| ==> r[i] == entries[i].key
  {
    if entries == [] then [] else [entries[0].key] + Keys(entries[1..])
  }

  function Values(entries: seq<Entry>): (r: seq<Value>)
    ensures |r| == |entries|
    ensures forall i :: 0 <= i < |entries| ==> r[i] == entries[i].val
  {
    if entries == [] then [] else [entries[0].val] + Values(entries[1..])
  }

  /** A Python dict never holds the same key twice. */
  predicate DistinctKeys(entries: seq<Entry>) {
    forall i, j :: 0 <= i < j < |entries| ==> entries[i].key != entries[j].key
  }

  /** The value stored under `key`, if any. */
  function Lookup(entries: seq<Entry>, key: string): (r: Option<Value>)
    ensures r.None? <==> key !in Keys(entries)
  {
    if entries == [] then None
    else if entries[0].key == key then Some(entries[0].val)
    else Lookup(entries[1..], key)
  }

  /** `d.get(key, default)`: the stored value when the key is present, the
      default otherwise. */
  lemma GetOrLookup(entries: seq<Entry>, key: string, default: Value)
    ensures key in Keys(entries) ==> Some(Lookup(entries, key).GetOr(default)) == Lookup(entries, key)
    ensures key !in Keys(entries) ==> Lookup(entries, key).GetOr(default) == default
  {
  }

  /** A value found under `key` is the value of an entry with that key. */
  lemma {:induction false} LookupFound(entries: seq<Entry>, key: string)
    requires Lookup(entries, key).Some?
    ensures exists i :: 0 <= i < |entries| && entries[i] == Entry(key, Lookup(entries, key).value)
  {
    if entries[0].key != key {
      LookupFound(entries[1..], key);
      var i :| 0 <= i < |entries[1..]| && entries[1..][i] == Entry(key, Lookup(entries, key).value);
      assert entries[i + 1] == entries[1..][i];
    }
  }

  /** In a dict with distinct keys, each key finds its own entry's value. */
  lemma {:induction false} LookupDistinct(entries: seq<Entry>, i: nat)
    requires DistinctKeys(entries) && i < |entries|
    ensures Lookup(entries, entries[i].key) == Some(entries[i].val)
  {
    if i > 0 {
      var rest := entries[1..];
      assert rest[i - 1] == entries[i];
      assert entries[0].key != entries[i].key;
      LookupDistinct(rest, i - 1);
    }
  }

  /** Looking up in a dict of three entries. */
  lemma LookupThree(d: seq<Entry>, key: string)
    requires |d| == 3
    ensures Lookup(d, key) ==
      if d[0].key == key then Some(d[0].val)
      else if d[1].key == key then Some(d[1].val)
      else if d[2].key == key then Some(d[2].val)
      else None
  {
    var rest := d[1..];
    var last := rest[1..];
    assert last[1..] == [];
    assert rest[0] == d[1] && last[0] == d[2];
    assert d[0].key != key ==> Lookup(d, key) == Lookup(rest, key);
    assert rest[0].key != key ==> Lookup(rest, key) == Lookup(last, key);
    assert last[0].key != key ==> Lookup(last, key) == None;
  }

  /** `d[key] = value`: replaces the value in place, or appends a new entry. */
  function Store(entries: seq<Entry>, key: string, value: Value): (r: seq<Entry>)
    ensures Keys(r) == Keys(entries) + (if key in Keys(entries) then [] else [key])
    ensures Lookup(r, key) == Some(value)
  {
    PutKeys(entries, key, value);
    PutLookup(entries, key, value);
    Put(entries, key, value)
  }

  function Put(entries: seq<Entry>, key: string, value: Value): seq<Entry> {
    if entries == [] then [Entry(key, value)]
    else if entries[0].key == key then [Entry(key, value)] + entries[1..]
    else [entries[0]] + Put(entries[1..], key, value)
  }

  lemma {:induction false} PutKeys(entries: seq<Entry>, key: string, value: Value)
    ensures Keys(Put(entries, key, value)) == Keys(entries) + (if key in Keys(entries) then [] else [key])
  {
    if entries != [] {
      var rest := entries[1..];
      var r := Put(entries, key, value);
      assert Keys(entries) == [entries[0].key] + Keys(rest);
      if entries[0].key == key {
        assert r[1..] == rest;
        assert Keys(r) == [key] + Keys(r[1..]);
      } else {
        PutKeys(rest, key, value);
        assert r[1..] == Put(rest, key, value);
        assert Keys(r) == [entries[0].key] + Keys(r[1..]);
      }
    }
  }

  lemma {:induction false} PutLookup(entries: seq<Entry>, key: string, value: Value)
    ensures Lookup(Put(entries, key, value), key) == Some(value)
  {
    if entries != [] && entries[0].key != key {
      PutLookup(entries[1..], key, value);
      assert Put(entries, key, value)[1..] == Put(entries[1..], key, value);
    }
  }

  /** A store keeps the keys of a dict distinct. */
  lemma StoreDistinct(entries: seq<Entry>, key: string, value: Value)
    requires DistinctKeys(entries)
    ensures DistinctKeys(Store(entries, key, value))
  {
    var r := Store(entries, key, value);
    forall i, j | 0 <= i < j < |r| ensures r[i].key != r[j].key {
      assert Keys(r)[i] == r[i].key && Keys(r)[j] == r[j].key;
      if j < |entries| {
        assert Keys(entries)[i] == entries[i].key && Keys(entries)[j] == entries[j].key;
      } else {
        assert Keys(entries)[i] == entries[i].key;
      }
    }
  }

  /** Storing under one key leaves every other key's value alone. */
  lemma {:induction false} StoreOther(entries: seq<Entry>, key: string, value: Value, other: string)
    requires other != key
    ensures Lookup(Store(entries, key, value), other) == Lookup(entries, other)
  {
    if entries != [] && entries[0].key != key {
      StoreOther(entries[1..], key, value, other);
      assert Store(entries, key, value)[1..] == Store(entries[1..], key, value);
    } else if entries != [] {
      assert Store(entries, key, value)[1..] == entries[1..];
    }
  }

  /** Storing under a key the dict already holds replaces that entry in place. */
  lemma StoreExisting(entries: seq<Entry>, i: nat, value: Value)
    requires DistinctKeys(entries) && i < |entries|
    ensures Store(entries, entries[i].key, value) == entries[i := Entry(entries[i].key, value)]
  {
    PutExisting(entries, i, value);
  }

  lemma {:induction false} PutExisting(entries: seq<Entry>, i: nat, value: Value)
    requires DistinctKeys(entries) && i < |entries|
    ensures Put(entries, entries[i].key, value) == entries[i := Entry(entries[i].key, value)]
  {
    if i > 0 {
      assert entries[0].key != entries[i].key;
      PutExisting(entries[1..], i - 1, value);
      assert entries[1..][i - 1 := Entry(entries[i].key, value)] == entries[i := Entry(entries[i].key, value)][1..];
    }
  }

  /** Storing under a new key appends the entry. */
  lemma StoreNew(entries: seq<Entry>, key: string, value: Value)
    requires key !in Keys(entries)
    ensures Store(entries, key, value) == entries + [Entry(key, value)]
  {
    assert forall j :: 0 <= j < |entries| ==> Keys(entries)[j] == entries[j].key;
    StoreFresh(entries, key, value);
  }

  lemma {:induction false} StoreFresh(entries: seq<Entry>, key: string, value: Value)
    requires forall j :: 0 <= j < |entries| ==> entries[j].key != key
    ensures Put(entries, key, value) == entries + [Entry(key, value)]
  {
    if entries != [] {
      var rest := entries[1..];
      assert entries[0].key != key;
      assert forall j :: 0 <= j < |rest| ==> rest[j].key != key by {
        forall j | 0 <= j < |rest| ensures rest[j].key != key {
          assert rest[j] == entries[j + 1];
        }
      }
      StoreFresh(rest, key, value);
      assert entries == [entries[0]] + rest;
    }
  }

  lemma StoreCons(entries: seq<Entry>, key: string, value: Value)
    requires entries != [] && entries[0].key != key
    ensures Store(entries, key, value) == [entries[0]] + Store(entries[1..], key, value)
  {
  }

  /** Every value after a store is the stored one or was already there. */
  lemma StoreValues(entries: seq<Entry>, key: string, value: Value)
    ensures forall i :: 0 <= i < |Store(entries, key, value)| ==>
      Store(entries, key, value)[i].val == value || Store(entries, key, value)[i] in entries
  {
    PutValues(entries, key, value);
  }

  lemma {:induction false} PutValues(entries: seq<Entry>, key: string, value: Value)
    ensures forall i :: 0 <= i < |Put(entries, key, value)| ==>
      Put(entries, key, value)[i].val == value || Put(entries, key, value)[i] in entries
  {
    if entries != [] && entries[0].key != key {
      var rest := entries[1..];
      PutValues(rest, key, value);
      var r := Put(entries, key, value);
      assert r == [entries[0]] + Put(rest, key, value);
      forall i | 0 <= i < |r| ensures r[i].val == value || r[i] in entries {
        if i > 0 {
          assert r[i] == Put(rest, key, value)[i - 1];
          if r[i] in rest {
            var j :| 0 <= j < |rest| && rest[j] == r[i];
            assert entries[j + 1] == r[i];
          }
        }
      }
    } else if entries != [] {
      var r := Put(entries, key, value);
      forall i | 0 <= i < |r| ensures r[i].val == value || r[i] in entries {
        if i > 0 {
          assert r[i] == entries[i];
        }
      }
    }
  }

  /** Looking a key up in two dicts laid end to end finds it in the first
      if it is there, and in the second otherwise. */
  lemma {:induction false} LookupAppend(a: seq<Entry>, b: seq<Entry>, key: string)
    ensures Lookup(a + b, key) == if key in Keys(a) then Lookup(a, key) else Lookup(b, key)
  {
    if a == [] {
      assert a + b == b;
    } else {
      assert (a + b)[0] == a[0] && (a + b)[1..] == a[1..] + b;
      assert Keys(a) == [a[0].key] + Keys(a[1..]);
      LookupAppend(a[1..], b, key);
    }
  }

  /** `key in container` for a string key. */
  function In(key: string, container: Value): (r: Result<bool>)
    ensures container.VDict? ==> r == Ok(key in Keys(container.entries))
    ensures container.VList? ==> r == Ok(VStr(key) in container.items)
    ensures r.Err? <==> !(container.VDict? || container.VList? || container.VStr? || container.VTable?)
  {
    match container
    case VDict(entries) => Ok(key in Keys(entries))
    case VList(items) => Ok(VStr(key) in items)
    case VStr(s) => Ok(Contains(s, key))
    case VTable(t) => Ok(key in t.columns)
    case _ => Err("argument of type '" + container.TypeName() + "' is not iterable")
  }

  /** `container[key]` for a string key. */
  function GetItem(container: Value, key: string): (r: Result<Value>)
    ensures r.Ok? <==> container.VDict? && key in Keys(container.entries)
    ensures r.Ok? ==> Lookup(container.entries, key) == Some(r.value)
  {
    match container
    case VDict(entries) =>
      (match Lookup(entries, key)
       case Some(v) => Ok(v)
       case None => Err("'" + key + "'"))
    case VList(_) => Err("list indices must be integers or slices, not str")
    case VStr(_) => Err("string indices must be integers")
    case VTable(_) => Err("'" + key + "'")
    case _ => Err("'" + container.TypeName() + "' object is not subscriptable")
  }

  /** `d.get(key, default)`; any non-dict has no `get` attribute. */
  function DictGet(d: Value, key: string, default: Value): (r: Result<Value>)
    ensures r.Ok? <==> d.VDict?
    ensures d.VDict? ==> r.value == Lookup(d.entries, key).GetOr(default)
  {
    if d.VDict? then Ok(Lookup(d.entries, key).GetOr(default))
    else Err("'" + d.TypeName() + "' object has no attribute 'get'")
  }

  /** The elements `for x in v` visits: list items, dict keys, characters, columns, byte values. */
  function Iterate(v: Value): (r: Result<seq<Value>>)
    ensures v.VList? ==> r == Ok(v.items)
    ensures v.VDict? ==> r.Ok? && |r.value| == |v.entries|
    ensures r.Err? <==> !(v.VList? || v.VDict? || v.VStr? || v.VTable? || v.VBytes?)
  {
    match v
    case VList(items) => Ok(items)
    case VDict(entries) => Ok(seq(|entries|, i requires 0 <= i < |entries| => VStr(entries[i].key)))
    case VStr(s) => Ok(seq(|s|, i requires 0 <= i < |s| => VStr([s[i]])))
    case VTable(t) => Ok(seq(|t.columns|, i requires 0 <= i < |t.columns| => VStr(t.columns[i])))
    case VBytes(bs) => Ok(seq(|bs|, i requires 0 <= i < |bs| => VInt(bs[i] as int)))
    case _ => Err("'" + v.TypeName() + "' object is not iterable")
  }

  /** `digits` or `digits.digits`, with at least one digit in all. */
  function ParseUnsigned(s: string): (r: Option<real>)
    ensures r.Some? ==> r.value >= 0.0
  {
    var parts := Split(s, ".");
    if |parts| == 1 && |s| > 0 && AllDigits(s) then Some(DigitsValue(s) as real)
    else if |parts| == 2 && |parts[0]| + |parts[1]| > 0 && AllDigits(parts[0]) && AllDigits(parts[1]) then
      Some(DigitsValue(parts[0]) as real + DigitsValue(parts[1]) as real / Pow10(|parts[1]|) as real)
    else None
  }

  /** The decimal literals `float(s)` accepts: surrounding whitespace, an optional sign. */
  function ParseDecimal(s: string): (r: Option<real>)
  {
    var t := Strip(s);
    if |t| > 0 && (t[0] == '-' || t[0] == '+') then
      match ParseUnsigned(t[1..])
      case Some(x) => Some(if t[0] == '-' then -x else x)
      case None => None
    else ParseUnsigned(t)
  }

  /** The text of a byte string whose bytes are all ASCII. */
  function AsciiText(bs: seq<byte>): (r: Option<string>)
    ensures r.Some? <==> forall i :: 0 <= i < |bs| ==> bs[i] < 128
    ensures r.Some? ==> |r.value| == |bs| && forall i :: 0 <= i < |bs| ==> r.value[i] as int == bs[i] as int
  {
    if bs == [] then Some([])
    else if bs[0] >= 128 then None
    else
      match AsciiText(bs[1..])
      case None => None
      case Some(rest) => Some([bs[0] as int as char] + rest)
  }

  /** `float(x)`; a byte string is read as ASCII text. */
  function ToFloat(v: Value): (r: Result<real>)
    ensures v.VInt? ==> r == Ok(v.i as real)
    ensures v.VReal? ==> r == Ok(v.r)
    ensures v.VBool? ==> r == Ok(if v.b then 1.0 else 0.0)
    ensures v.VStr? ==> (r.Ok? <==> ParseDecimal(v.s).Some?)
    ensures v.VStr? && r.Ok? ==> Some(r.value) == ParseDecimal(v.s)
    ensures v.VBytes? ==> (r.Ok? <==> AsciiText(v.bytes).Some? && ParseDecimal(AsciiText(v.bytes).value).Some?)
    ensures r.Ok? ==> v.VInt? || v.VReal? || v.VBool? || v.VStr? || v.VBytes?
  {
    if v.VInt? then Ok(v.i as real)
    else if v.VReal? then Ok(v.r)
    else if v.VBool? then Ok(if v.b then 1.0 else 0.0)
    else if v.VStr? then StringToFloat(v.s)
    else if v.VBytes? then
      match AsciiText(v.bytes)
      case Some(text) => StringToFloat(text)
      case None => Err("could not convert string to float: " + Repr(v))
    else Err("float() argument must be a string or a real number, not '" + v.TypeName() + "'")
  }

  /** `float(s)` for a string. */
  function StringToFloat(s: string): (r: Result<real>)
    ensures r.Ok? <==> ParseDecimal(s).Some?
    ensures r.Ok? ==> Some(r.value) == ParseDecimal(s)
  {
    match ParseDecimal(s)
    case Some(x) => Ok(x)
    case None => Err("could not convert string to float: '" + s + "'")
  }

  /** Decimal rendering of a float: `<int>.0` for whole values, otherwise up to
      twelve decimals with trailing zeros removed. */
  function RealToString(x: real): string {
    if x < 0.0 then "-" + UnsignedRealToString(-x) else UnsignedRealToString(x)
  }

  function UnsignedRealToString(x: real): string
    requires x >= 0.0
  {
      var whole := x.Floor;
      var frac := ((x - whole as real) * 1000000000000.0).Floor;
      IntToString(whole) + "." + (if frac == 0 then "0" else TrimRight(PadLeft(IntToString(frac), 12, '0'), c => c == '0'))
  }

  /** `str(x)`; lists and dicts use their `repr` layout. */
  function Str(v: Value): (r: string)
    ensures v.VStr? ==> r == v.s
  {
    match v
    case VStr(s) => s
    case _ => Repr(v)
  }

  /** `repr(x)`: strings quoted (escaping is not modelled). */
  function Repr(v: Value): string
    decreases v, 1
  {
    match v
    case VNull => "None"
    case VBool(b) => if b then "True" else "False"
    case VInt(i) => IntToString(i)
    case VReal(x) => RealToString(x)
    case VStr(s) => "'" + s + "'"
    case VBytes(_) => "b'...'"
    case VList(items) => "[" + ReprItems(items) + "]"
    case VDict(entries) => "{" + ReprEntries(entries) + "}"
    case VTable(_) => "<DataFrame>"
  }

  function ReprItems(items: seq<Value>): string
    decreases items, 0
  {
    if items == [] then ""
    else if |items| == 1 then Repr(items[0])
    else Repr(items[0]) + ", " + ReprItems(items[1..])
  }

  function ReprEntries(entries: seq<Entry>): string
    decreases entries, 0
  {
    if entries == [] then ""
    else
      var e := entries[0];
      var head := "'" + e.key + "': " + Repr(e.val);
      if |entries| == 1 then head else head + ", " + ReprEntries(entries[1..])
  }
}
