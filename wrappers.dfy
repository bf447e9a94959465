/** Option and Result values used where the application uses null/undefined and thrown errors. */
module Wrappers {

  /** A JavaScript value that may be null or undefined. */
  datatype Option<+T> = None | Some(value: T)

  /** The outcome of an operation that may throw. */
  datatype Result<+T, +E> = Success(value: T) | Failure(error: E)
}
