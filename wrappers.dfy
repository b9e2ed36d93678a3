/** Option and Result: the nullable values and the thrown-or-returned outcomes of the app. */
module Wrappers {

  /** A value that may be absent (`null` or `undefined` in the app). */
  datatype Option<+T> = None | Some(value: T) {
    /** The value, or the default a parameter declaration supplies when it is absent. */
    function GetOr(default: T): T {
      match this
      case Some(v) => v
      case None => default
    }
  }

  /** The outcome of a computation that either returns a value or throws. */
  datatype Result<+R, +E> = Success(value: R) | Failure(error: E)
}
