/** The three ways `app/algorithm_demo.py` finds the values that occur more
    than once in a list of integers: a nested loop over pairs of positions, a
    single pass with a `seen` set, and a comprehension over a `Counter`. */
module Duplicates {

  /** `x` sits at two different positions of `data`. */
  predicate Repeated(data: seq<int>, x: int) {
    exists i, j :: 0 <= i < j < |data| && data[i] == x && data[j] == x
  }

  /** `find_duplicates_optimized`: the values `Counter(data)` counts more than once. */
  function FindDuplicatesOptimized(data: seq<int>): set<int> {
    set x | x in multiset(data) && multiset(data)[x] > 1
  }

  /** Extending the input by one value repeats that value exactly when it was
      already there, and no other value. */
  lemma RepeatedStep(data: seq<int>, i: nat, x: int)
    requires i < |data|
    ensures Repeated(data[..i + 1], x) <==> Repeated(data[..i], x) || (x == data[i] && x in data[..i])
  {
    var longer := data[..i + 1];
    if Repeated(longer, x) {
      var a, b :| 0 <= a < b < |longer| && longer[a] == x && longer[b] == x;
      if b < i {
        assert data[..i][a] == x && data[..i][b] == x;
      } else {
        assert data[..i][a] == x;
      }
    }
    if Repeated(data[..i], x) {
      var a, b :| 0 <= a < b < i && data[..i][a] == x && data[..i][b] == x;
      assert longer[a] == x && longer[b] == x;
    }
    if x == data[i] && x in data[..i] {
      var a :| 0 <= a < i && data[..i][a] == x;
      assert longer[a] == x && longer[i] == x;
    }
  }

  /** A value is repeated exactly when the counter sees it at least twice. */
  lemma {:induction false} RepeatedIffCounted(data: seq<int>, x: int)
    ensures Repeated(data, x) <==> multiset(data)[x] > 1
  {
    if data != [] {
      var i := |data| - 1;
      RepeatedIffCounted(data[..i], x);
      RepeatedStep(data, i, x);
      assert data[..i + 1] == data;
      assert data == data[..i] + [data[i]];
      assert multiset(data) == multiset(data[..i]) + multiset{data[i]};
    }
  }

  /** `find_duplicates_optimized` returns exactly the repeated values. */
  lemma OptimizedFindsRepeated(data: seq<int>, x: int)
    ensures x in FindDuplicatesOptimized(data) <==> Repeated(data, x)
  {
    RepeatedIffCounted(data, x);
  }

  /** The position `i` holds the first occurrence of a value that occurs again
      later: the only position at which the nested loop appends. */
  predicate FirstRepeat(data: seq<int>, i: nat)
    requires i < |data|
  {
    data[i] in data[i + 1..] && data[i] !in data[..i]
  }

  /** What `duplicates` holds once the outer loop has gone through the first
      `n` positions. */
  function QuadraticUpTo(data: seq<int>, n: nat): seq<int>
    requires n <= |data|
  {
    if n == 0 then []
    else QuadraticUpTo(data, n - 1) + (if FirstRepeat(data, n - 1) then [data[n - 1]] else [])
  }

  /** The list `find_duplicates_quadratic` returns. */
  function QuadraticDuplicates(data: seq<int>): seq<int> {
    QuadraticUpTo(data, |data|)
  }

  /** After `n` outer rounds, `duplicates` holds the repeated values met so far. */
  lemma {:induction false} QuadraticUpToMembers(data: seq<int>, n: nat, x: int)
    requires n <= |data|
    ensures x in QuadraticUpTo(data, n) <==> x in data[..n] && Repeated(data, x)
  {
    if n > 0 {
      var k := n - 1;
      QuadraticUpToMembers(data, k, x);
      assert data[..n] == data[..k] + [data[k]];
      if x == data[k] && Repeated(data, x) && x !in data[..k] {
        var a, b :| 0 <= a < b < |data| && data[a] == x && data[b] == x;
        assert data[k + 1..][b - k - 1] == x;
      }
      if x == data[k] && FirstRepeat(data, k) {
        var b :| k + 1 <= b < |data| && data[b] == x by {
          var c :| 0 <= c < |data[k + 1..]| && data[k + 1..][c] == x;
          assert data[k + 1 + c] == x;
        }
        assert data[k] == x && data[b] == x;
      }
    }
  }

  /** x is in the quadratic result exactly when it occurs at least twice. */
  lemma QuadraticFindsRepeated(data: seq<int>, x: int)
    ensures x in QuadraticDuplicates(data) <==> Repeated(data, x)
  {
    QuadraticUpToMembers(data, |data|, x);
    assert data[..|data|] == data;
    if Repeated(data, x) {
      var a, b :| 0 <= a < b < |data| && data[a] == x && data[b] == x;
    }
  }

  /** The quadratic result never lists a value twice. */
  lemma {:induction false} QuadraticHasNoRepeats(data: seq<int>, n: nat)
    requires n <= |data|
    ensures forall a, b :: 0 <= a < b < |QuadraticUpTo(data, n)| ==> QuadraticUpTo(data, n)[a] != QuadraticUpTo(data, n)[b]
  {
    if n > 0 {
      var k := n - 1;
      QuadraticHasNoRepeats(data, k);
      if FirstRepeat(data, k) {
        QuadraticUpToMembers(data, k, data[k]);
      }
    }
  }

  /** The position of the first occurrence of `x`. */
  function FirstIndex(data: seq<int>, x: int): (i: nat)
    requires x in data
    ensures i < |data| && data[i] == x && x !in data[..i]
  {
    if data[0] == x then 0
    else
      var i := FirstIndex(data[1..], x) + 1;
      assert data[..i] == [data[0]] + data[1..][..i - 1];
      i
  }

  /** The quadratic result lists the duplicates in the order of their first
      occurrence in the input. */
  lemma {:induction false} QuadraticInFirstOccurrenceOrder(data: seq<int>, n: nat)
    requires n <= |data|
    ensures forall a :: 0 <= a < |QuadraticUpTo(data, n)| ==> QuadraticUpTo(data, n)[a] in data[..n]
    ensures forall a, b :: 0 <= a < b < |QuadraticUpTo(data, n)| ==>
      FirstIndex(data, QuadraticUpTo(data, n)[a]) < FirstIndex(data, QuadraticUpTo(data, n)[b])
  {
    if n > 0 {
      var k := n - 1;
      QuadraticInFirstOccurrenceOrder(data, k);
      var prefix := QuadraticUpTo(data, k);
      forall a | 0 <= a < |prefix| ensures prefix[a] in data[..n] && FirstIndex(data, prefix[a]) < k {
        var c :| 0 <= c < k && data[..k][c] == prefix[a];
        assert data[..n][c] == prefix[a];
      }
      if FirstRepeat(data, k) {
        assert data[..n][k] == data[k];
        assert FirstIndex(data, data[k]) == k;
      }
    }
  }

  /** `find_duplicates_quadratic`: for every position, compare with every later
      position, and append the value on a match unless it is listed already. */
  method FindDuplicatesQuadratic(data: seq<int>) returns (duplicates: seq<int>)
    ensures duplicates == QuadraticDuplicates(data)
  {
    duplicates := [];
    var n := |data|;
    for i := 0 to n
      invariant duplicates == QuadraticUpTo(data, i)
    {
      QuadraticUpToMembers(data, i, data[i]);
      assert data[i] in data[..i] ==> Repeated(data, data[i]) by {
        if data[i] in data[..i] {
          var c :| 0 <= c < i && data[..i][c] == data[i];
          assert data[c] == data[i];
        }
      }
      for j := i + 1 to n
        invariant duplicates == QuadraticUpTo(data, i) + (if data[i] in data[i + 1..j] && data[i] !in data[..i] then [data[i]] else [])
      {
        assert data[i + 1..j + 1] == data[i + 1..j] + [data[j]];
        if data[i] == data[j] && data[i] !in duplicates {
          duplicates := duplicates + [data[i]];
        }
      }
      assert data[i + 1..n] == data[i + 1..];
    }
  }

  /** `find_duplicates_linear`: one pass that adds a value to `duplicates`
      when `seen` has it already, and to `seen` otherwise; `list(duplicates)`
      lists the set in an order the model leaves open. */
  method FindDuplicatesLinear(data: seq<int>) returns (r: seq<int>)
    ensures (set x | x in r) == FindDuplicatesOptimized(data)
    ensures forall a, b :: 0 <= a < b < |r| ==> r[a] != r[b]
  {
    var seen: set<int> := {};
    var duplicates: set<int> := {};
    for i := 0 to |data|
      invariant seen == set x | x in data[..i]
      invariant forall x :: x in duplicates <==> Repeated(data[..i], x)
    {
      assert data[..i + 1] == data[..i] + [data[i]];
      forall x ensures Repeated(data[..i + 1], x) <==> Repeated(data[..i], x) || (x == data[i] && x in data[..i]) {
        RepeatedStep(data, i, x);
      }
      if data[i] in seen {
        duplicates := duplicates + {data[i]};
      } else {
        seen := seen + {data[i]};
      }
    }
    assert data[..|data|] == data;
    forall x ensures x in duplicates <==> x in FindDuplicatesOptimized(data) {
      OptimizedFindsRepeated(data, x);
    }
    r := ListOf(duplicates);
  }

  /** `list(s)`: every member once, in some order. */
  method ListOf(s: set<int>) returns (r: seq<int>)
    ensures (set x | x in r) == s
    ensures forall a, b :: 0 <= a < b < |r| ==> r[a] != r[b]
  {
    r := [];
    var rest := s;
    while rest != {}
      invariant rest <= s
      invariant forall x :: x in r <==> x in s && x !in rest
      invariant forall a, b :: 0 <= a < b < |r| ==> r[a] != r[b]
      decreases |rest|
    {
      assert (forall y :: y !in rest) ==> rest == {};
      var x :| x in rest;
      r := r + [x];
      rest := rest - {x};
    }
    assert forall x :: x in r <==> x in s;
  }

  /** The check the benchmark makes on every round: the quadratic and the
      linear results hold the same values. */
  method BenchmarkRound(data: seq<int>) returns (quadratic: seq<int>, linear: seq<int>)
    ensures (set x | x in quadratic) == (set x | x in linear)
  {
    quadratic := FindDuplicatesQuadratic(data);
    linear := FindDuplicatesLinear(data);
    forall x ensures x in quadratic <==> x in FindDuplicatesOptimized(data) {
      QuadraticFindsRepeated(data, x);
      OptimizedFindsRepeated(data, x);
    }
  }

  /** All three versions find the same set of values. */
  lemma AllThreeAgree(data: seq<int>)
    ensures (set x | x in QuadraticDuplicates(data)) == FindDuplicatesOptimized(data)
    ensures forall x :: x in FindDuplicatesOptimized(data) <==> Repeated(data, x)
  {
    var quadratic := QuadraticDuplicates(data);
    forall x ensures x in FindDuplicatesOptimized(data) <==> Repeated(data, x) {
      OptimizedFindsRepeated(data, x);
    }
    forall x ensures x in (set y | y in quadratic) <==> x in FindDuplicatesOptimized(data) {
      QuadraticFindsRepeated(data, x);
    }
  }
}
