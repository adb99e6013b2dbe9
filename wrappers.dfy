/** Success/failure values for the operations whose Python counterpart raises. */
module Wrappers {
  datatype Result<+T, +E> = Ok(value: T) | Err(error: E)
}
