/** Optional values, results with an error, and Go's error values, for Go's
    nil-able values and its (value, error) returns. */
module Wrappers {

  datatype Option<+T> = None | Some(value: T)

  datatype Result<+T, +E> = Success(value: T) | Failure(error: E)

  /** A non-nil Go error value. */
  datatype Error = Error(message: string)
}
