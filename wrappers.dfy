/** Option and Result, the two wrappers the library's Rust code uses throughout. */
module Wrappers {

  datatype Option<+T> = None | Some(value: T)

  /** `a.or(b)` of Rust's `Option`: the left value when present, otherwise the right one. */
  function Or<T>(a: Option<T>, b: Option<T>): (r: Option<T>)
    ensures r.Some? <==> a.Some? || b.Some?
    ensures a.Some? ==> r == a
    ensures a.None? ==> r == b
  {
    match a
    case Some(_) => a
    case None => b
  }

  /** A fallible computation: a value, or the error that stopped it. */
  datatype Result<+T, +E> = Success(value: T) | Failure(error: E)
}
