// Shared value types.
module Prelude {

  datatype Option<+T> = None | Some(value: T)

  // A call that may raise.
  datatype Result<+T, +E> = Ok(value: T) | Err(error: E)
}
