/** Option and Result values for the model's "null", "not found" and thrown errors. */
module Wrappers {

  /** `None` stands for JavaScript's `null`/`undefined`. */
  datatype Option<+T> = None | Some(value: T) {

    /** The value, or `default` when absent. */
    function GetOr(default: T): T {
      match this
      case Some(v) => v
      case None => default
    }
  }

  /** The outcome of an operation that can throw: `Failure` carries the error. */
  datatype Result<+T, +E> = Success(value: T) | Failure(error: E)
}
