/** Optional values and success-or-error results, used for JavaScript's
    NaN/undefined/null and for thrown errors. */
module Wrappers {

  datatype Option<+T> = None | Some(value: T)

  /** The outcome of a call that may throw: the error carries the message of
      the thrown `Error`. */
  datatype Result<+R> = Success(value: R) | Failure(error: string)
}
