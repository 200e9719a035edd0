/** Option and Result values used for optional model fields and for validators
    that either return a cleaned value or reject it with a message. */
module Wrappers {

  datatype Option<+T> = None | Some(value: T)

  datatype Result<+T, +E> = Ok(value: T) | Err(error: E)
}
