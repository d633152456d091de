/** Failure-carrying wrappers shared by every module of the model. */
module Common {

  datatype Option<+T> = None | Some(value: T)

  /** The outcome of an operation that the program can abort with an exception. */
  datatype Result<+T, +E> = Ok(value: T) | Err(error: E)
}
