/** Option and Result, used for Python's `None` and for exceptions that the
    modelled code catches or that callers may observe. */
module Wrappers {

  /** `None` stands for Python's `None` (or a missing key). */
  datatype Option<+T> = None | Some(value: T) {

    /** The value, or `default` when there is none (Python's `d.get(key, default)`). */
    function GetOr(default: T): T {
      match this
      case Some(v) => v
      case None => default
    }
  }

  /** `Failure(e)` stands for an exception whose message is `e`. */
  datatype Result<+T, +E> = Success(value: T) | Failure(error: E)
}
