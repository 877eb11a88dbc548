/** Option and Result: JavaScript's `null` results and thrown errors, as values. */
module Wrappers {

  /** A value that may be absent (`null` in the source). */
  datatype Option<+T> = None | Some(value: T) {

    /** The value, or `default` when there is none. */
    function GetOr(default: T): T {
      match this
      case Some(v) => v
      case None => default
    }
  }

  /** Either a result or the error that the source throws instead of returning. */
  datatype Result<+T, +E> = Success(value: T) | Failure(error: E)
}
