/** Option and Result, plus the all-or-nothing conversion of a list that the
    backend's Python loops perform: a loop that raises on one element
    produces nothing at all. */
module Wrappers {

  datatype Option<+T> = None | Some(value: T)

  datatype Result<+T, +E> = Success(value: T) | Failure(error: E)

  /** Converts every element with `f`; fails as soon as one conversion fails.
      This is what a Python `for` loop that appends `f(x)` and lets the first
      exception escape computes. */
  function Traverse<A, B>(xs: seq<A>, f: A -> Option<B>): (r: Option<seq<B>>)
    ensures r.Some? <==> forall k :: 0 <= k < |xs| ==> f(xs[k]).Some?
    ensures r.Some? ==> |r.value| == |xs|
    ensures r.Some? ==> forall k :: 0 <= k < |xs| ==> f(xs[k]) == Some(r.value[k])
  {
    if xs == [] then Some([])
    else
      match Traverse(xs[..|xs| - 1], f)
      case None =>
        None
      case Some(init) =>
        match f(xs[|xs| - 1])
        case None => None
        case Some(last) => Some(init + [last])
  }
}
