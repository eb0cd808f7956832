/** Option and Result: the "maybe missing" values and the error exit of the model. */
module Wrappers {

  /** A value that may be absent (Python's None). */
  datatype Option<+T> = None | Some(value: T) {

    /** The held value, or `default` when there is none (Python's `x or default`). */
    function GetOr(default: T): T {
      match this
      case Some(v) => v
      case None => default
    }
  }

  /** The outcome of a computation that can stop with an error message. */
  datatype Result<+R> = Success(value: R) | Failure(error: string)
}
