/** Optional values and results with an error message, the model's stand-in
    for Python's `None` and for a raised exception. */
module Base {

  datatype Option<T> = None | Some(value: T) {
    function GetOr(default: T): T {
      match this
      case Some(v) => v
      case None => default
    }
  }

  /** `Err(message)` stands for an exception carrying `str(e)` as its message. */
  datatype Result<T> = Ok(value: T) | Err(error: string) {
    predicate IsFailure() {
      Err?
    }

    function PropagateFailure<U>(): Result<U>
      requires Err?
    {
      Err(error)
    }

    function Extract(): T
      requires Ok?
    {
      value
    }
  }

  /** `[f(x) for x in xs]` */
  function MapSeq<A, B>(f: A -> B, xs: seq<A>): (r: seq<B>)
    ensures |r| == |xs|
  {
    if xs == [] then [] else MapSeq(f, xs[..|xs| - 1]) + [f(xs[|xs| - 1])]
  }

  /** The i-th image is the image of the i-th item. */
  lemma {:induction false} MapSeqEach<A, B>(f: A -> B, xs: seq<A>, i: nat)
    requires i < |xs|
    ensures MapSeq(f, xs)[i] == f(xs[i])
  {
    var k := |xs| - 1;
    if i < k {
      MapSeqEach(f, xs[..k], i);
    }
  }

  lemma MapSeqStep<A, B>(f: A -> B, xs: seq<A>, i: nat)
    requires i < |xs|
    ensures MapSeq(f, xs[..i + 1]) == MapSeq(f, xs[..i]) + [f(xs[i])]
  {
    assert xs[..i + 1][..i] == xs[..i];
  }

  /** `[f(x) for x in xs]` where `f` may raise: the results in order, or the
      error of the first item that fails. */
  function MapAll<A, B>(f: A -> Result<B>, xs: seq<A>): Result<seq<B>>
  {
    if xs == [] then Ok([])
    else
      match MapAll(f, xs[..|xs| - 1])
      case Err(e) => Err(e)
      case Ok(ys) =>
        match f(xs[|xs| - 1])
        case Err(e) => Err(e)
        case Ok(y) => Ok(ys + [y])
  }

  /** The list succeeds exactly when every item does, and then holds one
      result per item, each that item's own. */
  lemma {:induction false} MapAllEach<A, B>(f: A -> Result<B>, xs: seq<A>)
    ensures MapAll(f, xs).Ok? <==> forall i :: 0 <= i < |xs| ==> f(xs[i]).Ok?
    ensures MapAll(f, xs).Ok? ==>
      && |MapAll(f, xs).value| == |xs|
      && forall i :: 0 <= i < |xs| ==> f(xs[i]) == Ok(MapAll(f, xs).value[i])
  {
    if xs != [] {
      var init := xs[..|xs| - 1];
      MapAllEach(f, init);
      assert forall i :: 0 <= i < |init| ==> xs[i] == init[i];
      if MapAll(f, xs).Ok? {
        var ys := MapAll(f, init).value;
        assert MapAll(f, xs).value == ys + [f(xs[|xs| - 1]).value];
      } else if MapAll(f, init).Ok? {
        assert f(xs[|xs| - 1]).Err?;
      } else {
        var i :| 0 <= i < |init| && f(init[i]).Err?;
        assert f(xs[i]).Err?;
      }
    }
  }

  /** Once a prefix fails, the whole list fails with the same error. */
  lemma {:induction false} MapAllErrorStays<A, B>(f: A -> Result<B>, xs: seq<A>, n: nat)
    requires n <= |xs| && MapAll(f, xs[..n]).Err?
    ensures MapAll(f, xs) == MapAll(f, xs[..n])
    decreases |xs| - n
  {
    if n < |xs| {
      assert xs[..n + 1][..n] == xs[..n];
      MapAllErrorStays(f, xs, n + 1);
    } else {
      assert xs[..n] == xs;
    }
  }

  /** One more item that succeeds extends the results by its own. */
  lemma MapAllExtend<A, B>(f: A -> Result<B>, xs: seq<A>, n: nat, ys: seq<B>)
    requires n < |xs| && MapAll(f, xs[..n]) == Ok(ys) && f(xs[n]).Ok?
    ensures MapAll(f, xs[..n + 1]) == Ok(ys + [f(xs[n]).value])
  {
    assert xs[..n + 1][..n] == xs[..n];
  }

  /** The first item that fails decides the outcome of the whole list. */
  lemma MapAllFirstError<A, B>(f: A -> Result<B>, xs: seq<A>, n: nat)
    requires n < |xs| && MapAll(f, xs[..n]).Ok? && f(xs[n]).Err?
    ensures MapAll(f, xs) == Err(f(xs[n]).error)
  {
    assert xs[..n + 1][..n] == xs[..n];
    MapAllErrorStays(f, xs, n + 1);
  }

  /** The images of the items `f` accepts, in order: a column conversion with
      `errors='coerce'` followed by `dropna`. */
  function FilterMap<A, B>(f: A -> Option<B>, xs: seq<A>): (r: seq<B>)
    ensures |r| <= |xs|
  {
    if xs == [] then []
    else
      match f(xs[0])
      case None => FilterMap(f, xs[1..])
      case Some(y) => [y] + FilterMap(f, xs[1..])
  }

  /** What is kept is exactly the images of the accepted items. */
  lemma {:induction false} FilterMapMembers<A, B>(f: A -> Option<B>, xs: seq<A>)
    ensures forall y :: y in FilterMap(f, xs) <==> exists i :: 0 <= i < |xs| && f(xs[i]) == Some(y)
  {
    if xs != [] {
      FilterMapMembers(f, xs[1..]);
      assert forall i :: 0 < i < |xs| ==> xs[i] == xs[1..][i - 1];
      forall y | exists i :: 0 <= i < |xs| && f(xs[i]) == Some(y)
        ensures y in FilterMap(f, xs)
      {
        var i :| 0 <= i < |xs| && f(xs[i]) == Some(y);
        if i > 0 {
          assert f(xs[1..][i - 1]) == Some(y);
        }
      }
    }
  }

  /** Two filtering conversions in a row keep exactly the images of the items
      both accept. */
  lemma FilterMapTwice<A, B, C>(f: A -> Option<B>, g: B -> Option<C>, xs: seq<A>)
    ensures forall z :: z in FilterMap(g, FilterMap(f, xs)) <==>
      exists i :: 0 <= i < |xs| && f(xs[i]).Some? && g(f(xs[i]).value) == Some(z)
  {
    forall z ensures z in FilterMap(g, FilterMap(f, xs)) <==>
      exists i :: 0 <= i < |xs| && f(xs[i]).Some? && g(f(xs[i]).value) == Some(z)
    {
      FilterMapTwiceAt(f, g, xs, z);
    }
  }

  lemma FilterMapTwiceAt<A, B, C>(f: A -> Option<B>, g: B -> Option<C>, xs: seq<A>, z: C)
    ensures z in FilterMap(g, FilterMap(f, xs)) <==>
      exists i :: 0 <= i < |xs| && f(xs[i]).Some? && g(f(xs[i]).value) == Some(z)
  {
    var ys := FilterMap(f, xs);
    FilterMapHas(g, ys, z);
    if z in FilterMap(g, ys) {
      var j :| 0 <= j < |ys| && g(ys[j]) == Some(z);
      FilterMapHas(f, xs, ys[j]);
      assert ys[j] in ys;
      var i :| 0 <= i < |xs| && f(xs[i]) == Some(ys[j]);
      assert f(xs[i]).Some? && g(f(xs[i]).value) == Some(z);
    }
    if exists i :: 0 <= i < |xs| && f(xs[i]).Some? && g(f(xs[i]).value) == Some(z) {
      var i :| 0 <= i < |xs| && f(xs[i]).Some? && g(f(xs[i]).value) == Some(z);
      var y := f(xs[i]).value;
      FilterMapHas(f, xs, y);
      var j :| 0 <= j < |ys| && ys[j] == y;
      assert g(ys[j]) == Some(z);
    }
  }

  /** One value is kept exactly when it is the image of an accepted item. */
  lemma {:induction false} FilterMapHas<A, B>(f: A -> Option<B>, xs: seq<A>, y: B)
    ensures y in FilterMap(f, xs) <==> exists i :: 0 <= i < |xs| && f(xs[i]) == Some(y)
  {
    if xs != [] {
      var rest := xs[1..];
      FilterMapHas(f, rest, y);
      if exists i :: 0 <= i < |xs| && f(xs[i]) == Some(y) {
        var i :| 0 <= i < |xs| && f(xs[i]) == Some(y);
        if i > 0 {
          assert f(rest[i - 1]) == Some(y);
        }
      }
      if y in FilterMap(f, rest) {
        var i :| 0 <= i < |rest| && f(rest[i]) == Some(y);
        assert f(xs[i + 1]) == Some(y);
      }
    }
  }


  /** When every item is accepted nothing is dropped. */
  lemma {:induction false} FilterMapKeepsAll<A, B>(f: A -> Option<B>, xs: seq<A>)
    requires forall i :: 0 <= i < |xs| ==> f(xs[i]).Some?
    ensures |FilterMap(f, xs)| == |xs|
  {
    if xs != [] {
      assert forall i :: 0 <= i < |xs[1..]| ==> xs[1..][i] == xs[i + 1];
      FilterMapKeepsAll(f, xs[1..]);
    }
  }
}
