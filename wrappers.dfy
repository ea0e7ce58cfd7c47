/** Optional values and success-or-failure results shared by the other modules. */
module Wrappers {

  /** A value that may be absent: a JavaScript `undefined` field or a missing entry. */
  datatype Option<+T> = None | Some(value: T) {

    /** The value, or `default` when there is none. */
    function GetOr(default: T): T {
      match this
      case Some(v) => v
      case None => default
    }
  }

  /** The outcome of an operation that either returns a value or throws. */
  datatype Result<+R, +E> = Success(value: R) | Failure(error: E)
}
