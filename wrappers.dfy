/** Optional values and results with an error, shared by every module of the model. */
module Wrappers {

  /** A value that may be missing (JavaScript `undefined`/`null`, Python `None`). */
  datatype Option<T> = None | Some(value: T)

  /** The outcome of a step that may throw: its value, or the error it raised. */
  datatype Result<T, E> = Success(value: T) | Failure(error: E)
}
