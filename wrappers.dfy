/** Optional values and error returns shared by every module of the model. */
module Wrappers {
  datatype Option<T> = None | Some(value: T)

  /** A computation that either yields a value or fails with an error code
      (the source raises an exception or panics in the failing case). */
  datatype Result<T, E> = Ok(value: T) | Err(error: E)
}
