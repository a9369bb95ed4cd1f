/** Option and error-carrying outcome types shared by the other modules. */
module Wrappers {

  datatype Option<+T> = None | Some(value: T)

  /** The value of a computation, or the error that stopped it. */
  datatype Outcome<+T, +E> = Ok(value: T) | Err(error: E)
}
