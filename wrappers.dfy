/** Option and Result values used for the runtime's `Option<_>` and `Result<_, _>` returns. */
module Wrappers {

  datatype Option<+T> = None | Some(value: T)

  datatype Result<+T, +E> = Ok(value: T) | Err(error: E)
}
