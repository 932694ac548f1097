/** Option and Result values shared by every module of the model. */
module Base {
  /** A value that may be missing (`null`/`undefined` in the source). */
  datatype Option<+T> = None | Some(value: T)

  /** The outcome of an operation that the source lets throw: the thrown error is `Err`. */
  datatype Result<+T, +E> = Ok(value: T) | Err(error: E)
}
