/** Optional values and results with an error, as the rest of the model uses them. */
module Wrappers {

  /** A JavaScript value that may be `undefined`/`null` (None) or present (Some). */
  datatype Option<+T> = None | Some(value: T)

  /** The outcome of an operation that either returns a value or throws an error. */
  datatype Result<+T, +E> = Success(value: T) | Failure(error: E)

  /** JavaScript `a ?? b` on two optional values: the first one that is present. */
  function OrElse<T>(a: Option<T>, b: Option<T>): (r: Option<T>)
    ensures r.Some? <==> a.Some? || b.Some?
    ensures a.Some? ==> r == a
    ensures a.None? ==> r == b
  {
    if a.Some? then a else b
  }

  /** JavaScript `a ?? fallback`: the value of `a` if present, else `fallback`. */
  function GetOr<T>(a: Option<T>, fallback: T): (r: T)
    ensures a.Some? ==> r == a.value
    ensures a.None? ==> r == fallback
  {
    match a
    case Some(v) => v
    case None => fallback
  }
}
