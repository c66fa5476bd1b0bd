/** Absence and failure, as the server code signals them with `undefined` and thrown errors. */
module Common {

  /** A value that may be missing (`T | undefined`). */
  datatype Option<+T> = None | Some(value: T)

  /** The outcome of an operation that can throw: a value, or the error it reports. */
  datatype Result<+T, +E> = Ok(value: T) | Err(error: E)
}
