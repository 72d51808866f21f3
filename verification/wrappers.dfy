/** Option and Result values shared by the modules of this model. */
module Wrappers {

  /** A value that may be absent (C#'s null or default). */
  datatype Option<+T> = None | Some(value: T) {
    /** The value, or `default` when absent (C#'s `??` operator). */
    function GetOr(default: T): T {
      match this
      case Some(v) => v
      case None => default
    }
  }

  /** The outcome of an operation that either returns a value or throws. */
  datatype Result<+T, +E> = Success(value: T) | Failure(error: E)
}
