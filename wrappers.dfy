/** Optional values and error-or-value results, the model's stand-in for Go's
    `(value, error)` pairs and nil-able fields. */
module Wrappers {
  datatype Option<T> = None | Some(value: T)

  /** A Go `(value, error)` return: the error is carried as its message. */
  datatype Result<T> = Ok(value: T) | Err(error: string)
}
