/** Optional values, results with an error, and pass/fail outcomes of validators. */
module Wrappers {

  /** A value that may be missing (TypeScript's `T | null` or an optional field). */
  datatype Option<+T> = None | Some(value: T) {
    function GetOr(default: T): T {
      match this
      case Some(v) => v
      case None => default
    }
  }

  /** The value of an operation that can fail with an error (an observable that errors). */
  datatype Result<+T, +E> = Success(value: T) | Failure(error: E)

  /** The answer of a form validator: it passes, or it fails and shows an alert. */
  datatype Outcome = Pass | Fail(alert: string)
}
