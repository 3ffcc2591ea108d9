/** Optional values and results with an error message, as used throughout the model. */
module Wrappers {

  /** A value that may be missing (JavaScript's null or undefined). */
  datatype Option<+T> = None | Some(value: T)

  /** The outcome of an expression that may throw: a value, or the thrown error's message. */
  datatype Result<+T> = Success(value: T) | Failure(error: string)
}
