/** The success-or-error outcome of an operation that raises in the source. */
module Wrappers {

  datatype Result<+T, +E> = Ok(value: T) | Err(error: E)
}
