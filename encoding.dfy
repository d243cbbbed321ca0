/** What an upload carries: either bytes the pipeline computes itself (a byte
    string passed through, or `str.encode('utf-8')`), or the output of a library
    writer (pandas, `json`, `yaml`, ElementTree, pyarrow) whose bytes are not
    part of this model and are only named by the writer and its input. */
module Encoding {
  import opened Json
  import opened Xml

  /** UTF-8 (RFC 3629) encoding of one Unicode scalar value. */
  function Utf8Char(c: char): (r: seq<byte>)
    ensures 1 <= |r| <= 4
    ensures (c as int < 0x80) <==> |r| == 1
    ensures |r| == 1 ==> r[0] as int == c as int
  {
    var n := c as int;
    if n < 0x80 then [n as byte]
    else if n < 0x800 then [(0xC0 + n / 0x40) as byte, (0x80 + n % 0x40) as byte]
    else if n < 0x10000 then
      [(0xE0 + n / 0x1000) as byte, (0x80 + (n / 0x40) % 0x40) as byte, (0x80 + n % 0x40) as byte]
    else
      [(0xF0 + n / 0x40000) as byte, (0x80 + (n / 0x1000) % 0x40) as byte,
       (0x80 + (n / 0x40) % 0x40) as byte, (0x80 + n % 0x40) as byte]
  }

  /** `s.encode('utf-8')` */
  function Utf8(s: string): (r: seq<byte>)
    ensures |s| <= |r| <= 4 * |s|
  {
    if s == [] then [] else Utf8Char(s[0]) + Utf8(s[1..])
  }

  /** Encoding a concatenation encodes the parts one after the other. */
  lemma {:induction false} Utf8Append(a: string, b: string)
    ensures Utf8(a + b) == Utf8(a) + Utf8(b)
  {
    if a == [] {
      assert a + b == b;
    } else {
      assert (a + b)[0] == a[0] && (a + b)[1..] == a[1..] + b;
      Utf8Append(a[1..], b);
    }
  }

  predicate IsAscii(s: string) {
    forall i :: 0 <= i < |s| ==> s[i] as int < 0x80
  }

  /** ASCII text encodes to one byte per character, each the character's code. */
  lemma {:induction false} Utf8Ascii(s: string)
    requires IsAscii(s)
    ensures |Utf8(s)| == |s|
    ensures forall i :: 0 <= i < |s| ==> Utf8(s)[i] as int == s[i] as int
  {
    if s != [] {
      Utf8Ascii(s[1..]);
      assert Utf8(s) == Utf8Char(s[0]) + Utf8(s[1..]);
      forall i | 1 <= i < |s| ensures Utf8(s)[i] as int == s[i] as int {
        assert Utf8(s)[i] == Utf8(s[1..])[i - 1];
      }
    }
  }

  /** A library writer and the settings the pipeline passes it. */
  datatype Writer =
    | PandasCsv(sep: char)        // DataFrame.to_csv(index=False, sep=…)
    | JsonDumps(indent: nat)      // json.dumps(indent=…, default=str)
    | StrictJsonDumps(indent: nat) // json.dumps(indent=…), no fallback for other types
    | PandasJson(indent: nat)     // DataFrame.to_json(orient='records', indent=…)
    | PandasParquet               // DataFrame.to_parquet(engine='pyarrow')
    | PandasXml                   // DataFrame.to_xml(index=False)
    | ElementTreeXml(tree: Node)  // ET.tostring(root, encoding='utf-8')
    | PandasHtml                  // DataFrame.to_html(index=False)
    | JsonInHtml                  // <html><body><pre>json.dumps(…)</pre></body></html>
    | YamlDump                    // yaml.dump(default_flow_style=False)

  /** Prepared upload content. */
  datatype Encoded = Bytes(bytes: seq<byte>) | Written(writer: Writer, input: Value)

  /** The bytes of prepared content; the library writers' output is a parameter. */
  function Materialize(e: Encoded, render: (Writer, Value) -> seq<byte>): (r: seq<byte>)
    ensures e.Bytes? ==> r == e.bytes
  {
    match e
    case Bytes(b) => b
    case Written(w, v) => render(w, v)
  }

  /** `df.to_dict('records')` */
  function Records(t: Table): Value {
    VList(seq(|t.rows|, i requires 0 <= i < |t.rows| => VDict(RowEntries(t.columns, t.rows[i]))))
  }

  /** A row as a dict in column order; a cell the row lacks is `None`. */
  function RowEntries(columns: seq<string>, row: map<string, Value>): (r: seq<Entry>)
    ensures |r| == |columns|
  {
    if columns == [] then []
    else [Entry(columns[0], if columns[0] in row then row[columns[0]] else VNull)] + RowEntries(columns[1..], row)
  }
}
