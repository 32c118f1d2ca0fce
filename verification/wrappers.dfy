/** The optional values and error outcomes used across the model. */
module Wrappers {

  /** A Java reference that may be null. */
  datatype Option<T> = None | Some(value: T)

  /** A normal return, or the exception a Java method throws instead. */
  datatype Result<T, E> = Ok(value: T) | Err(error: E)
}
