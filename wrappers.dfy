/** Failure-compatible wrappers used across the connector model. */
module Wrappers {

  /** An optional value: JavaScript's `undefined` (or `false`) versus a present value. */
  datatype Option<+T> = None | Some(value: T) {
    function GetOr(default: T): T {
      match this
      case Some(v) => v
      case None => default
    }
  }

  /** A computation that either yields a value or throws an error. */
  datatype Result<+T, +E> = Success(value: T) | Failure(error: E)
}
