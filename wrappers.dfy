/** Optional values and success-or-failure results, used for nullable fields and for
    operations whose promise can be rejected. */
module Wrappers {

  /** A value that may be absent: `null`/`undefined` in the program. */
  datatype Option<+T> = None | Some(value: T)

  /** The outcome of an asynchronous operation: resolved with a value or rejected with an error. */
  datatype Result<+R, +E> = Success(value: R) | Failure(error: E)
}
