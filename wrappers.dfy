/** Option and Result, the failure-compatible wrappers the rest of the model uses. */
module Wrappers {

  /** A value that may be absent: Java's Optional, or a reference that may be null. */
  datatype Option<+T> = None | Some(value: T) {

    /** The value, or `default` when absent (Java's `orElse`). */
    function GetOr(default: T): T {
      match this
      case Some(v) => v
      case None => default
    }
  }

  /** Either a value or an error: a Java computation that returns normally or throws. */
  datatype Result<+R, +E> = Success(value: R) | Failure(error: E)
}
