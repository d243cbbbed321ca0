/** The two table operations the pipeline borrows from pandas and applies to
    record sequences: `drop_duplicates(subset=…, keep='first')` and
    `sort_values(…)`. A row's identity for deduplication is given by a key
    function, its place in the order by a `SortKey`. */
module Tables {
  import opened Base
  import opened Text

  /** A sort key: a number compared first, then a string (Python's tuple order). */
  datatype SortKey = SortKey(major: int, minor: string)

  predicate KeyLe(a: SortKey, b: SortKey) {
    a.major < b.major || (a.major == b.major && StrLe(a.minor, b.minor))
  }

  lemma KeyLeTotal(a: SortKey, b: SortKey)
    ensures KeyLe(a, b) || KeyLe(b, a)
  {
    StrLeTotal(a.minor, b.minor);
  }

  lemma KeyLeTrans(a: SortKey, b: SortKey, c: SortKey)
    requires KeyLe(a, b) && KeyLe(b, c)
    ensures KeyLe(a, c)
  {
    if a.major == b.major == c.major {
      StrLeTrans(a.minor, b.minor, c.minor);
    }
  }

  lemma KeyLeAntisym(a: SortKey, b: SortKey)
    requires KeyLe(a, b) && KeyLe(b, a)
    ensures a == b
  {
    StrLeAntisym(a.minor, b.minor);
  }

  /** The keys of the rows, in row order. */
  function KeysOf<T, K>(rows: seq<T>, key: T -> K): (r: seq<K>)
    ensures |r| == |rows|
    ensures forall i :: 0 <= i < |rows| ==> r[i] == key(rows[i])
  {
    if rows == [] then [] else [key(rows[0])] + KeysOf(rows[1..], key)
  }

  predicate NoDuplicates<K(==)>(s: seq<K>) {
    forall i, j :: 0 <= i < j < |s| ==> s[i] != s[j]
  }

  /** `a` keeps some of the elements of `b`, in their order. */
  predicate IsSubsequence<T(==)>(a: seq<T>, b: seq<T>)
    decreases |b|
  {
    a == [] || (b != [] && ((a[0] == b[0] && IsSubsequence(a[1..], b[1..])) || IsSubsequence(a, b[1..])))
  }

  lemma {:induction false} SubsequenceShorter<T>(a: seq<T>, b: seq<T>)
    requires IsSubsequence(a, b)
    ensures |a| <= |b| && multiset(a) <= multiset(b)
    decreases |b|
  {
    if a != [] {
      if a[0] == b[0] && IsSubsequence(a[1..], b[1..]) {
        SubsequenceShorter(a[1..], b[1..]);
        assert a == [a[0]] + a[1..] && b == [b[0]] + b[1..];
      } else {
        SubsequenceShorter(a, b[1..]);
        assert b == [b[0]] + b[1..];
      }
    }
  }

  /** The first row of `rows` whose key is `k`, if any. */
  function FirstWithKey<T, K(==)>(rows: seq<T>, key: T -> K, k: K): (r: Option<T>)
  {
    if rows == [] then None
    else if key(rows[0]) == k then Some(rows[0])
    else FirstWithKey(rows[1..], key, k)
  }

  /** `drop_duplicates(keep='first')` on the key, for rows after those whose
      keys are already in `seen`. */
  function DedupFrom<T, K(==)>(rows: seq<T>, key: T -> K, seen: set<K>): seq<T>
  {
    if rows == [] then []
    else if key(rows[0]) in seen then DedupFrom(rows[1..], key, seen)
    else [rows[0]] + DedupFrom(rows[1..], key, seen + {key(rows[0])})
  }

  function Dedup<T, K(==)>(rows: seq<T>, key: T -> K): seq<T> {
    DedupFrom(rows, key, {})
  }

  lemma {:induction false} DedupFromProperties<T, K>(rows: seq<T>, key: T -> K, seen: set<K>)
    ensures var r := DedupFrom(rows, key, seen);
      && IsSubsequence(r, rows)
      && NoDuplicates(KeysOf(r, key))
      && (forall i :: 0 <= i < |r| ==> key(r[i]) !in seen)
      && (forall i :: 0 <= i < |rows| && key(rows[i]) !in seen ==> key(rows[i]) in KeysOf(r, key))
      && (forall i :: 0 <= i < |r| ==> FirstWithKey(rows, key, key(r[i])) == Some(r[i]))
    decreases |rows|
  {
    if rows != [] {
      var x := rows[0];
      if key(x) in seen {
        DedupFromProperties(rows[1..], key, seen);
        var r := DedupFrom(rows[1..], key, seen);
        assert IsSubsequence(r, rows) by {
          if r != [] { assert rows[1..] == rows[1..]; }
        }
        forall i | 0 <= i < |rows| && key(rows[i]) !in seen
          ensures key(rows[i]) in KeysOf(r, key)
        {
          assert i > 0 && rows[i] == rows[1..][i - 1];
        }
      } else {
        var seen' := seen + {key(x)};
        DedupFromProperties(rows[1..], key, seen');
        var tail := DedupFrom(rows[1..], key, seen');
        var r := [x] + tail;
        assert r[1..] == tail;
        assert KeysOf(r, key) == [key(x)] + KeysOf(tail, key);
        forall i | 0 <= i < |rows| && key(rows[i]) !in seen
          ensures key(rows[i]) in KeysOf(r, key)
        {
          if i > 0 && key(rows[i]) != key(x) {
            assert rows[i] == rows[1..][i - 1];
          }
        }
        forall i | 0 <= i < |r|
          ensures FirstWithKey(rows, key, key(r[i])) == Some(r[i])
        {
          if i > 0 {
            assert r[i] == tail[i - 1];
          }
        }
      }
    }
  }

  /** After `drop_duplicates(subset=key, keep='first')` no two rows share a key,
      every key of the input survives, each kept row is the first of its key,
      and the kept rows are a subsequence of the input. */
  lemma DedupProperties<T, K>(rows: seq<T>, key: T -> K)
    ensures var r := Dedup(rows, key);
      && IsSubsequence(r, rows) && |r| <= |rows| && multiset(r) <= multiset(rows)
      && NoDuplicates(KeysOf(r, key))
      && (forall i :: 0 <= i < |rows| ==> key(rows[i]) in KeysOf(r, key))
      && (forall i :: 0 <= i < |r| ==> FirstWithKey(rows, key, key(r[i])) == Some(r[i]))
  {
    DedupFromProperties(rows, key, {});
    SubsequenceShorter(Dedup(rows, key), rows);
  }

  predicate SortedBy<T>(rows: seq<T>, key: T -> SortKey) {
    forall i, j :: 0 <= i < j < |rows| ==> KeyLe(key(rows[i]), key(rows[j]))
  }

  /** Inserts `x` before the first row with a larger key. */
  function Insert<T>(x: T, sorted: seq<T>, key: T -> SortKey): (r: seq<T>)
    requires SortedBy(sorted, key)
    ensures SortedBy(r, key)
    ensures multiset(r) == multiset(sorted) + multiset{x}
    ensures |r| > 0 && (r[0] == x || (sorted != [] && r[0] == sorted[0]))
  {
    if sorted == [] then [x]
    else if KeyLe(key(x), key(sorted[0])) then
      var r := [x] + sorted;
      forall j | 1 < j < |r| ensures KeyLe(key(x), key(r[j])) {
        KeyLeTrans(key(x), key(sorted[0]), key(r[j]));
      }
      r
    else
      KeyLeTotal(key(x), key(sorted[0]));
      var rest := Insert(x, sorted[1..], key);
      var r := [sorted[0]] + rest;
      assert KeyLe(key(sorted[0]), key(rest[0]));
      forall j | 1 < j < |r| ensures KeyLe(key(sorted[0]), key(r[j])) {
        KeyLeTrans(key(sorted[0]), key(rest[0]), key(r[j]));
      }
      assert sorted == [sorted[0]] + sorted[1..];
      r
  }

  /** `sort_values(key)`: an insertion sort, which keeps rows with equal keys in input order. */
  function Sort<T>(rows: seq<T>, key: T -> SortKey): (r: seq<T>)
    ensures SortedBy(r, key)
    ensures multiset(r) == multiset(rows)
  {
    if rows == [] then []
    else
      assert rows == [rows[0]] + rows[1..];
      Insert(rows[0], Sort(rows[1..], key), key)
  }

  /** Two equal entries of a sequence make its multiset count at least two. */
  lemma CountTwo<K>(s: seq<K>, i: nat, j: nat)
    requires i < j < |s| && s[i] == s[j]
    ensures multiset(s)[s[i]] >= 2
  {
    assert s == s[..j] + [s[j]] + s[j + 1..];
    assert s[i] in multiset(s[..j]);
  }

  /** A value counted twice sits at two different places. */
  lemma {:induction false} TwoPlaces<T>(s: seq<T>, x: T)
    requires multiset(s)[x] >= 2
    ensures exists p, q :: 0 <= p < q < |s| && s[p] == x && s[q] == x
  {
    assert s == [s[0]] + s[1..];
    if s[0] == x {
      assert x in multiset(s[1..]);
      var q :| 0 <= q < |s[1..]| && s[1..][q] == x;
      assert s[q + 1] == x;
    } else {
      TwoPlaces(s[1..], x);
      var p, q :| 0 <= p < q < |s[1..]| && s[1..][p] == x && s[1..][q] == x;
      assert s[p + 1] == x && s[q + 1] == x;
    }
  }

  /** Reordering rows keeps their keys free of duplicates. */
  lemma PermutationKeepsDistinctKeys<T, K>(a: seq<T>, b: seq<T>, key: T -> K)
    requires multiset(a) == multiset(b) && NoDuplicates(KeysOf(a, key))
    ensures NoDuplicates(KeysOf(b, key))
  {
    forall i, j | 0 <= i < j < |b| ensures key(b[i]) != key(b[j]) {
      PermutedPair(a, b, key, i, j);
    }
  }

  lemma PermutedPair<T, K>(a: seq<T>, b: seq<T>, key: T -> K, i: nat, j: nat)
    requires multiset(a) == multiset(b) && NoDuplicates(KeysOf(a, key))
    requires i < j < |b|
    ensures key(b[i]) != key(b[j])
  {
    var ka := KeysOf(a, key);
    if b[i] == b[j] {
      CountTwo(b, i, j);
      TwoPlaces(a, b[i]);
    } else {
      assert b[i] in multiset(a) && b[j] in multiset(a);
      var p :| 0 <= p < |a| && a[p] == b[i];
      var q :| 0 <= q < |a| && a[q] == b[j];
      assert ka[p] == key(b[i]) && ka[q] == key(b[j]);
    }
  }

  /** Dedupe-then-sort: sorted, one row per key, the first of each, nothing new. */
  lemma DedupSortProperties<T, K>(rows: seq<T>, identity: T -> K, order: T -> SortKey)
    ensures var r := Sort(Dedup(rows, identity), order);
      && SortedBy(r, order) && |r| <= |rows| && multiset(r) <= multiset(rows)
      && NoDuplicates(KeysOf(r, identity))
      && (forall i :: 0 <= i < |rows| ==> exists j :: 0 <= j < |r| && identity(r[j]) == identity(rows[i]))
      && (forall j :: 0 <= j < |r| ==> FirstWithKey(rows, identity, identity(r[j])) == Some(r[j]))
  {
    var d := Dedup(rows, identity);
    var r := Sort(d, order);
    DedupProperties(rows, identity);
    assert |r| == |multiset(r)| == |multiset(d)| == |d|;
    PermutationKeepsDistinctKeys(d, r, identity);
    forall i | 0 <= i < |rows| ensures exists j :: 0 <= j < |r| && identity(r[j]) == identity(rows[i]) {
      var k :| 0 <= k < |d| && KeysOf(d, identity)[k] == identity(rows[i]);
      assert d[k] in multiset(r);
      var j :| 0 <= j < |r| && r[j] == d[k];
    }
    forall j | 0 <= j < |r| ensures FirstWithKey(rows, identity, identity(r[j])) == Some(r[j]) {
      assert r[j] in multiset(d);
      var k :| 0 <= k < |d| && d[k] == r[j];
    }
  }

  /** Every key of the input survives dedupe-then-sort. */
  lemma DedupSortKeepsEvery<T, K>(rows: seq<T>, identity: T -> K, order: T -> SortKey)
    ensures var r := Sort(Dedup(rows, identity), order);
      forall i :: 0 <= i < |rows| ==> exists j :: 0 <= j < |r| && identity(r[j]) == identity(rows[i])
  {
    DedupSortProperties(rows, identity, order);
  }

  /** Every row dedupe-then-sort keeps is the first of its key. */
  lemma DedupSortKeepsFirst<T, K>(rows: seq<T>, identity: T -> K, order: T -> SortKey, j: nat)
    requires j < |Sort(Dedup(rows, identity), order)|
    ensures var r := Sort(Dedup(rows, identity), order);
      FirstWithKey(rows, identity, identity(r[j])) == Some(r[j])
  {
    DedupSortProperties(rows, identity, order);
  }
}
