/** Option and Result values shared by the modules of this model. */
module Wrappers {

  /** A value that may be missing: JavaScript's `undefined`/`null`, an empty form field. */
  datatype Option<+T> = None | Some(value: T) {
    function GetOr(default: T): T {
      match this
      case Some(v) => v
      case None => default
    }
  }

  /** The outcome of an operation that can throw: `Failure` carries the error message. */
  datatype Result<+T> = Success(value: T) | Failure(error: string)
}
