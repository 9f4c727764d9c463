/** The optional value and the value-or-exception used across the model. */
module Wrappers {

  /** JavaScript's `undefined`/`null` versus a present value. */
  datatype Option<+T> = None | Some(value: T) {
    function GetOr(default: T): T {
      match this
      case Some(v) => v
      case None => default
    }
  }

  /** A value, or the exception a call throws instead. */
  datatype Result<+T, +E> = Success(value: T) | Failure(error: E)
}
