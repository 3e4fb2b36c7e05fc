/** Optional values and error-or-value results, used for JavaScript's
    `undefined`/`null` fields and for operations that throw. */
module Wrappers {

  datatype Option<+T> = None | Some(value: T) {
    /** `x || fallback` on a value that is either present or absent */
    function GetOr(fallback: T): T {
      match this
      case Some(v) => v
      case None => fallback
    }
  }

  /** An operation that either returns a value or throws an error carrying a message. */
  datatype Result<+T, +E> = Success(value: T) | Failure(error: E)
}
