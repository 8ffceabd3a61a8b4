/** Option and Result values used across the model for Go's nil/error returns
    and TypeScript's undefined/thrown errors. */
module Wrappers {
  datatype Option<+T> = None | Some(value: T)

  datatype Result<+T, +E> = Ok(value: T) | Err(error: E)
}
