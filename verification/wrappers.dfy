/** Failure-compatible wrapper datatypes shared by every module of the model. */
module Wrappers {

  /** A value that may be missing: JavaScript's `undefined`, or SQL's NULL. */
  datatype Option<+T> = None | Some(value: T)

  /** A computation that either yields a value or raises an error with a message. */
  datatype Result<+T, +E> = Ok(value: T) | Err(error: E)

  /** `o ?? d` for a default parameter: the default applies only when the value is missing. */
  function GetOr<T>(o: Option<T>, default: T): (r: T)
    ensures o.Some? ==> r == o.value
    ensures o.None? ==> r == default
  {
    match o
    case Some(v) => v
    case None => default
  }
}
