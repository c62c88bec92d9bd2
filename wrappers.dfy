/** Optional values and results with an error, used for Python's `None` and for error responses. */
module Wrappers {

  datatype Option<+T> = None | Some(value: T)

  datatype Result<+R, +E> = Success(value: R) | Failure(error: E)

  /** The elements of `xs` that are present, in order. */
  function Somes<T(!new)>(xs: seq<Option<T>>): (r: seq<T>)
    ensures |r| <= |xs|
    ensures forall x :: x in r <==> Some(x) in xs
  {
    if xs == [] then []
    else
      var rest := Somes(xs[..|xs| - 1]);
      assert xs == xs[..|xs| - 1] + [xs[|xs| - 1]];
      match xs[|xs| - 1]
      case None => rest
      case Some(x) => rest + [x]
  }
}
