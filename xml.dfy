/** The ElementTree conversion both the collector and the persistence layer
    apply to dicts and lists before writing XML: each dict entry becomes a
    child element named after its key, each list item a child `item_<i>`, and
    a scalar the element's text. The two copies differ in one rule only: the
    persistence copy (persistence.py) turns ' ' and '-' in a key into '_',
    the collector copy (collector.py) uses the key as it is. */
module Xml {
  import opened Base
  import opened Text
  import opened Json

  /** A finished element: tag, text, children in document order. */
  datatype Node = Node(tag: string, text: Option<string>, children: seq<Node>)

  /** `ET.Element`: an element whose text and children the conversion sets in place. */
  class Element {
    var tag: string
    var text: Option<string>
    var children: seq<Node>

    /** `ET.Element(tag)` */
    constructor (tag: string)
      ensures this.tag == tag && text == None && children == []
    {
      this.tag := tag;
      text := None;
      children := [];
    }

    /** The element as a finished tree. */
    function Snapshot(): Node
      reads this
    {
      Node(tag, text, children)
    }
  }

  /** The key with ' ' and then '-' replaced by '_' (persistence.py). */
  function SafeKey(key: string): (r: string)
    ensures |r| == |key|
    ensures forall i :: 0 <= i < |r| ==> r[i] != ' ' && r[i] != '-'
    ensures forall i :: 0 <= i < |r| ==> r[i] == if key[i] == ' ' || key[i] == '-' then '_' else key[i]
  {
    var once := Replace(key, " ", "_");
    ReplaceChar(key, ' ', '_');
    ReplaceChar(once, '-', '_');
    Replace(once, "-", "_")
  }

  /** The tag of the child made for a dict key. */
  function ChildTag(key: string, sanitize: bool): string {
    if sanitize then SafeKey(key) else key
  }

  /** `f'item_{i}'` */
  function ItemTag(i: nat): string {
    "item_" + NatToString(i)
  }

  /** The element `tag` becomes once `data` has been converted into it. */
  function Build(data: Value, tag: string, sanitize: bool): (r: Node)
    ensures r.tag == tag
    decreases data, 2
  {
    Node(tag, TextOf(data), ChildrenOf(data, sanitize))
  }

  /** The text the conversion gives an element: `str(data)` for a scalar, none otherwise. */
  function TextOf(data: Value): (r: Option<string>)
    ensures r.Some? <==> !data.IsContainer()
  {
    if data.IsContainer() then None else Some(Str(data))
  }

  /** The children the conversion appends for `data`. */
  function ChildrenOf(data: Value, sanitize: bool): (r: seq<Node>)
    ensures data.VDict? ==> |r| == |data.entries|
    ensures data.VList? ==> |r| == |data.items|
    ensures !data.IsContainer() ==> r == []
    decreases data, 1
  {
    match data
    case VDict(entries) => EntryNodes(entries, sanitize)
    case VList(items) => ItemNodes(items, 0, sanitize)
    case _ => []
  }

  function EntryNodes(entries: seq<Entry>, sanitize: bool): (r: seq<Node>)
    ensures |r| == |entries|
    decreases entries, 0
  {
    if entries == [] then []
    else [Build(entries[0].val, ChildTag(entries[0].key, sanitize), sanitize)] + EntryNodes(entries[1..], sanitize)
  }

  function ItemNodes(items: seq<Value>, start: nat, sanitize: bool): (r: seq<Node>)
    ensures |r| == |items|
    decreases items, 0
  {
    if items == [] then []
    else [Build(items[0], ItemTag(start), sanitize)] + ItemNodes(items[1..], start + 1, sanitize)
  }

  lemma {:induction false} EntryNodesAt(entries: seq<Entry>, sanitize: bool, i: nat)
    requires i < |entries|
    ensures EntryNodes(entries, sanitize)[i] == Build(entries[i].val, ChildTag(entries[i].key, sanitize), sanitize)
  {
    if i > 0 {
      EntryNodesAt(entries[1..], sanitize, i - 1);
    }
  }

  lemma {:induction false} ItemNodesAt(items: seq<Value>, start: nat, sanitize: bool, i: nat)
    requires i < |items|
    ensures ItemNodes(items, start, sanitize)[i] == Build(items[i], ItemTag(start + i), sanitize)
  {
    if i > 0 {
      ItemNodesAt(items[1..], start + 1, sanitize, i - 1);
    }
  }

  /** `_dict_to_xml_element(data, parent)` (sanitize) and `_dict_to_xml(data, parent)`
      (no sanitize): one child per dict entry or list item, appended in order and
      filled recursively, or the scalar's text on the parent. */
  method Fill(data: Value, parent: Element, sanitize: bool)
    modifies parent
    ensures parent.tag == old(parent.tag)
    ensures parent.children == old(parent.children) + ChildrenOf(data, sanitize)
    ensures parent.text == if data.IsContainer() then old(parent.text) else TextOf(data)
    decreases data, 2
  {
    match data {
      case VDict(entries) => FillEntries(entries, parent, sanitize);
      case VList(items) => FillItems(items, parent, sanitize);
      case _ => parent.text := Some(Str(data));
    }
  }

  /** `child = ET.SubElement(parent, tag)` filled from `data`: the parent gains
      the converted child as its last child. */
  method AppendChild(data: Value, tag: string, parent: Element, sanitize: bool)
    modifies parent
    ensures parent.tag == old(parent.tag) && parent.text == old(parent.text)
    ensures parent.children == old(parent.children) + [Build(data, tag, sanitize)]
    decreases data, 3
  {
    var child := new Element(tag);
    Fill(data, child, sanitize);
    assert child.Snapshot() == Build(data, tag, sanitize);
    parent.children := parent.children + [child.Snapshot()];
  }

  /** The dict branch: `for key, value in data.items()`. */
  method FillEntries(entries: seq<Entry>, parent: Element, sanitize: bool)
    modifies parent
    ensures parent.tag == old(parent.tag) && parent.text == old(parent.text)
    ensures parent.children == old(parent.children) + EntryNodes(entries, sanitize)
    decreases entries, 1
  {
    var i := 0;
    while i < |entries|
      invariant 0 <= i <= |entries|
      invariant parent.tag == old(parent.tag) && parent.text == old(parent.text)
      invariant parent.children == old(parent.children) + EntryNodes(entries[..i], sanitize)
    {
      var e := entries[i];
      var tag := ChildTag(e.key, sanitize);
      AppendChild(e.val, tag, parent, sanitize);
      EntryNodesSnoc(entries[..i + 1], sanitize);
      assert entries[..i + 1][..i] == entries[..i] && entries[..i + 1][i] == e;
      assert EntryNodes(entries[..i + 1], sanitize) == EntryNodes(entries[..i], sanitize) + [Build(e.val, tag, sanitize)];
      i := i + 1;
    }
    assert entries[..i] == entries;
  }

  /** The list branch: `for i, item in enumerate(data)`. */
  method FillItems(items: seq<Value>, parent: Element, sanitize: bool)
    modifies parent
    ensures parent.tag == old(parent.tag) && parent.text == old(parent.text)
    ensures parent.children == old(parent.children) + ItemNodes(items, 0, sanitize)
    decreases items, 1
  {
    var i := 0;
    while i < |items|
      invariant 0 <= i <= |items|
      invariant parent.tag == old(parent.tag) && parent.text == old(parent.text)
      invariant parent.children == old(parent.children) + ItemNodes(items[..i], 0, sanitize)
    {
      AppendChild(items[i], ItemTag(i), parent, sanitize);
      ItemNodesSnoc(items[..i + 1], 0, sanitize);
      assert items[..i + 1][..i] == items[..i] && items[..i + 1][i] == items[i];
      assert ItemNodes(items[..i + 1], 0, sanitize) == ItemNodes(items[..i], 0, sanitize) + [Build(items[i], ItemTag(i), sanitize)];
      i := i + 1;
    }
    assert items[..i] == items;
  }

  lemma {:induction false} EntryNodesSnoc(entries: seq<Entry>, sanitize: bool)
    requires entries != []
    ensures var last := entries[|entries| - 1];
      EntryNodes(entries, sanitize)
        == EntryNodes(entries[..|entries| - 1], sanitize) + [Build(last.val, ChildTag(last.key, sanitize), sanitize)]
  {
    if |entries| > 1 {
      EntryNodesSnoc(entries[1..], sanitize);
      assert entries[1..][..|entries| - 2] == entries[..|entries| - 1][1..];
    }
  }

  lemma {:induction false} ItemNodesSnoc(items: seq<Value>, start: nat, sanitize: bool)
    requires items != []
    ensures ItemNodes(items, start, sanitize)
      == ItemNodes(items[..|items| - 1], start, sanitize) + [Build(items[|items| - 1], ItemTag(start + |items| - 1), sanitize)]
  {
    if |items| > 1 {
      ItemNodesSnoc(items[1..], start + 1, sanitize);
      assert items[1..][..|items| - 2] == items[..|items| - 1][1..];
    }
  }

  /** `root = ET.Element('root')` followed by the conversion. */
  method ToTree(data: Value, sanitize: bool) returns (tree: Node)
    ensures tree == Build(data, "root", sanitize)
  {
    var root := new Element("root");
    Fill(data, root, sanitize);
    tree := root.Snapshot();
  }

  /** Every tag the persistence conversion writes is free of ' ' and '-'. */
  predicate TagsSafe(n: Node) {
    (forall i :: 0 <= i < |n.tag| ==> n.tag[i] != ' ' && n.tag[i] != '-')
    && (forall i :: 0 <= i < |n.children| ==> TagsSafe(n.children[i]))
  }

  lemma {:induction false} SanitizedTagsSafe(data: Value, tag: string)
    requires forall i :: 0 <= i < |tag| ==> tag[i] != ' ' && tag[i] != '-'
    ensures TagsSafe(Build(data, tag, true))
    decreases data
  {
    var n := Build(data, tag, true);
    match data {
      case VDict(entries) =>
        forall i | 0 <= i < |n.children| ensures TagsSafe(n.children[i]) {
          EntryNodesAt(entries, true, i);
          SanitizedTagsSafe(entries[i].val, SafeKey(entries[i].key));
        }
      case VList(items) =>
        forall i | 0 <= i < |n.children| ensures TagsSafe(n.children[i]) {
          ItemNodesAt(items, 0, true, i);
          ItemTagSafe(i);
          SanitizedTagsSafe(items[i], ItemTag(i));
        }
      case _ =>
    }
  }

  lemma ItemTagSafe(i: nat)
    ensures forall k :: 0 <= k < |ItemTag(i)| ==> ItemTag(i)[k] != ' ' && ItemTag(i)[k] != '-'
  {
    var digits := NatToString(i);
    assert ItemTag(i) == "item_" + digits;
    forall k | 0 <= k < |ItemTag(i)| ensures ItemTag(i)[k] != ' ' && ItemTag(i)[k] != '-' {
      if k >= 5 {
        assert ItemTag(i)[k] == digits[k - 5];
      }
    }
  }
}
