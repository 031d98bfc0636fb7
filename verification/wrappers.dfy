/** Option and Result, used for the lookups that may find nothing and for
    the exceptions the lister raises, and `MapResult`, which is what
    `list(map(f, xs))` does when `f` may raise. */
module Wrappers {

  datatype Option<+T> = None | Some(value: T)

  datatype Result<+R, +E> = Ok(value: R) | Err(error: E)

  /** Applies `f` to every element in order; the first failure is the
      result and no partial list is returned. */
  function MapResult<A, B, E>(f: A -> Result<B, E>, xs: seq<A>): (r: Result<seq<B>, E>)
    ensures r.Ok? <==> forall k :: 0 <= k < |xs| ==> f(xs[k]).Ok?
    ensures r.Ok? ==> |r.value| == |xs|
    ensures r.Ok? ==> forall k :: 0 <= k < |xs| ==> f(xs[k]) == Ok(r.value[k])
    decreases |xs|
  {
    if |xs| == 0 then Ok([])
    else
      match f(xs[0])
      case Err(e) => Err(e)
      case Ok(y) =>
        match MapResult(f, xs[1..])
        case Err(e) => Err(e)
        case Ok(ys) => Ok([y] + ys)
  }

  /** A failure is the error of the first element that fails, and every
      element before it succeeded. */
  lemma {:induction false} MapResultFirstError<A, B, E>(f: A -> Result<B, E>, xs: seq<A>)
    requires MapResult(f, xs).Err?
    ensures exists k :: (0 <= k < |xs| && f(xs[k]) == Err(MapResult(f, xs).error)
      && forall j :: 0 <= j < k ==> f(xs[j]).Ok?)
    decreases |xs|
  {
    var e := MapResult(f, xs).error;
    if f(xs[0]).Err? {
      assert f(xs[0]) == Err(e);
    } else {
      MapResultFirstError(f, xs[1..]);
      var k :| 0 <= k < |xs[1..]| && f(xs[1..][k]) == Err(e)
        && forall j :: 0 <= j < k ==> f(xs[1..][j]).Ok?;
      assert f(xs[k + 1]) == Err(e);
      forall j | 0 <= j < k + 1 ensures f(xs[j]).Ok? {
        if j > 0 { assert xs[j] == xs[1..][j - 1]; }
      }
    }
  }

  /** A failure in a prefix decides the result of the whole list. */
  lemma {:induction false} MapResultPrefixError<A, B, E>(f: A -> Result<B, E>, a: seq<A>, b: seq<A>)
    requires MapResult(f, a).Err?
    ensures MapResult(f, a + b) == MapResult(f, a)
    decreases |a|
  {
    assert (a + b)[0] == a[0];
    assert (a + b)[1..] == a[1..] + b;
    if f(a[0]).Ok? {
      MapResultPrefixError(f, a[1..], b);
    }
  }

  /** After a prefix that succeeds, a failure in the rest is the result. */
  lemma {:induction false} MapResultSuffixError<A, B, E>(f: A -> Result<B, E>, a: seq<A>, b: seq<A>)
    requires MapResult(f, a).Ok? && MapResult(f, b).Err?
    ensures MapResult(f, a + b) == MapResult(f, b)
    decreases |a|
  {
    if |a| == 0 {
      assert a + b == b;
    } else {
      assert (a + b)[0] == a[0];
      assert (a + b)[1..] == a[1..] + b;
      MapResultSuffixError(f, a[1..], b);
    }
  }

  /** When both parts succeed, the outputs are concatenated in order. */
  lemma MapResultAppend<A, B, E>(f: A -> Result<B, E>, a: seq<A>, b: seq<A>)
    requires MapResult(f, a).Ok? && MapResult(f, b).Ok?
    ensures MapResult(f, a + b) == Ok(MapResult(f, a).value + MapResult(f, b).value)
  {
    var outs := MapResult(f, a).value + MapResult(f, b).value;
    forall k | 0 <= k < |a + b|
      ensures f((a + b)[k]) == Ok(outs[k])
    {
      if k < |a| {
        assert (a + b)[k] == a[k];
      } else {
        assert (a + b)[k] == b[k - |a|];
      }
    }
    var r := MapResult(f, a + b);
    assert r.Ok?;
    assert forall k :: 0 <= k < |a + b| ==> r.value[k] == outs[k];
    assert r.value == outs;
  }
}
