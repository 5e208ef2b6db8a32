/** The Option, Result and Outcome types shared by the whole model. */
module Wrappers {

  /** A value that may be `null` or `undefined` (both are `None`). */
  datatype Option<+T> = None | Some(value: T) {
    /** The `??` operator: the value if present, else `default`. */
    function GetOr(default: T): T {
      match this
      case Some(v) => v
      case None => default
    }
  }

  /** The outcome of a call that either returns a value or throws / rejects. */
  datatype Result<+R, +E> = Success(value: R) | Failure(error: E)

  /** The outcome of a call that returns nothing or throws / rejects. */
  datatype Outcome<+E> = Pass | Fail(error: E)
}
