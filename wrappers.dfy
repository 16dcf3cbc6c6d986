/** `Option` and `Result`, shared by the other modules. */
module Wrappers {

  /** A value that may be absent: a JavaScript `undefined` key, a Python `None`. */
  datatype Option<+T> = None | Some(value: T) {

    /** The wrapped value, or `fallback` when absent. */
    function GetOr(fallback: T): T {
      match this
      case Some(v) => v
      case None => fallback
    }
  }

  /** The outcome of a validation: the accepted (possibly normalised) value or the error. */
  datatype Result<+T, +E> = Success(value: T) | Failure(error: E)
}
