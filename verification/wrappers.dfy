/** Option, Result and Outcome datatypes shared by the model. */
module Wrappers {

  /** An optional value: Python's `None` or a present value, and the absent key of a `dict.get`. */
  datatype Option<+T> = None | Some(value: T) {

    /** The value when present, `default` otherwise (Python's `d.get(key, default)`). */
    function GetOr(default: T): T {
      match this
      case Some(v) => v
      case None => default
    }
  }

  /** A computation that either returns a value or raises an error. */
  datatype Result<+R, +E> = Success(value: R) | Failure(error: E)

  /** A check that either passes or raises an error, with no value. */
  datatype Outcome<+E> = Pass | Fail(error: E)
}
