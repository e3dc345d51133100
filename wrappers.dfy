/** Option and Result, the two failure-carrying shapes the model uses for
    Rust's `Option`, `Result` and panics, and the collection of a sequence
    of results that stops at the first error. */
module Wrappers {

  datatype Option<T> = None | Some(value: T)

  datatype Result<T, E> = Ok(value: T) | Err(error: E)

  /** `f(xs[i])` is the first of the results that fails, with `e`. */
  predicate FirstErr<A, B, E(==)>(xs: seq<A>, f: A -> Result<B, E>, i: int, e: E) {
    && 0 <= i < |xs| && f(xs[i]).Err? && f(xs[i]).error == e
    && forall j :: 0 <= j < i ==> f(xs[j]).Ok?
  }

  /** Mapping a fallible step over a sequence and collecting: all the
      values when every step succeeds, otherwise the first error. */
  function MapResult<A, B(==), E(==)>(xs: seq<A>, f: A -> Result<B, E>): (r: Result<seq<B>, E>)
    ensures r.Ok? <==> forall i :: 0 <= i < |xs| ==> f(xs[i]).Ok?
    ensures r.Ok? ==> |r.value| == |xs| && forall i :: 0 <= i < |xs| ==> f(xs[i]) == Ok(r.value[i])
    ensures r.Err? ==> exists i :: FirstErr(xs, f, i, r.error)
    decreases |xs|
  {
    if |xs| == 0 then Ok([])
    else
      match f(xs[0])
      case Err(e) =>
        assert FirstErr(xs, f, 0, e);
        Err(e)
      case Ok(y) =>
        match MapResult(xs[1..], f)
        case Err(e) =>
          var i :| FirstErr(xs[1..], f, i, e);
          assert xs[1..][i] == xs[i + 1];
          assert forall j :: 0 < j <= i ==> xs[1..][j - 1] == xs[j];
          assert FirstErr(xs, f, i + 1, e);
          Err(e)
        case Ok(ys) =>
          assert forall i :: 0 < i < |xs| ==> xs[1..][i - 1] == xs[i];
          Ok([y] + ys)
  }
}
