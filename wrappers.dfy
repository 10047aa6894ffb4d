/** Optional values and results of operations that may raise. */
module Wrappers {

  /** A value that may be absent: a missing dictionary key, an attribute the object lacks, a form field not sent. */
  datatype Option<T> = None | Some(value: T) {

    /** The value, or `default` when it is absent (Python's `d.get(k, default)`). */
    function GetOr(default: T): T {
      match this
      case Some(v) => v
      case None => default
    }
  }

  /** The outcome of a call that may raise: `Failure` carries the exception's message. */
  datatype Result<T> = Success(value: T) | Failure(error: string)
}
