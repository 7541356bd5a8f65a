/** Failure-carrying result types shared by every module of the model. */
module Wrappers {

  datatype Option<+T> = None | Some(value: T) {
    function GetOr(default: T): T {
      match this
      case Some(v) => v
      case None => default
    }
  }

  /** A JavaScript `Error` as the client throws it: a message and, for
      errors that come from an HTTP response, the numeric status the
      client attaches as `err.status`. */
  datatype Error = Error(message: string, status: Option<int>)

  /** The outcome of an operation that either returns a value or throws. */
  datatype Result<+T> = Ok(value: T) | Err(error: Error) {
    predicate IsFailure() { Err? }
  }

  /** `new Error(message)` without a status. */
  function Thrown<T>(message: string): Result<T> {
    Err(Error(message, None))
  }
}
