/** Optional values and results, standing for the source's `None`, for dictionary keys that may be
 *  absent and for operations that raise an exception. */
module Wrappers {

  datatype Option<+T> = None | Some(value: T) {

    /** The carried value, or `default` when there is none (Python's `d.get(key, default)`). */
    function GetOr(default: T): T {
      match this
      case Some(v) => v
      case None => default
    }
  }

  /** The outcome of an operation that either returns a value or raises an error with a message. */
  datatype Result<+T> = Success(value: T) | Failure(error: string)
}
