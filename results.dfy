/** Failure-carrying return values: Go's `(value, error)` pairs and nil-able errors. */
module Results {

  /** A value that may be absent; `None` plays the role of Go's nil error. */
  datatype Option<+T> = None | Some(value: T)

  /** A value or the error that prevented computing it. */
  datatype Result<+T, +E> = Ok(value: T) | Err(error: E)
}
