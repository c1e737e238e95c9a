/** Option and Result datatypes shared by the other modules. */
module Wrappers {
  /** A value that may be absent (a nullable column, a lookup that finds nothing). */
  datatype Option<+T> = None | Some(value: T)

  /** The outcome of an operation that can raise an error. */
  datatype Result<+T, +E> = Ok(value: T) | Err(error: E)
}
