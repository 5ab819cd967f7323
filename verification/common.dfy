/** Outcome types shared by the modules of this model. */
module Common {

  /** A value that may be absent (Python's `Optional`). */
  datatype Option<+T> = None | Some(value: T)

  /** A success value or an error value (the `result` package's `Ok`/`Err`, or a raised exception). */
  datatype Result<+T, +E> = Ok(value: T) | Err(error: E)
}
