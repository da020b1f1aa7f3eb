/** Failure-carrying results shared by the memory and datamap modules. */
module Wrappers {

  /** A value that may be absent: a null C pointer or a missing key. */
  datatype Option<+T> = None | Some(value: T)

  /** The value of an operation, or the error it raises. */
  datatype Result<+T, +E> = Ok(value: T) | Err(error: E)

  /** The outcome of an operation that returns nothing but may raise. */
  datatype Outcome<+E> = Pass | Fail(error: E)
}
