/** Failure-carrying values shared by the resolver and the client. */
module Common {

  /** A value that may be absent (Python's `None`). */
  datatype Option<T> = None | Some(value: T)

  /** Either a normal return or the exception a call raises. */
  datatype Result<T, E> = Ok(value: T) | Err(error: E)
}
