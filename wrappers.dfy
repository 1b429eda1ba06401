/** Option and result wrappers shared by every module of the gateway model. */
module Wrappers {

  /** A value that may be absent, as Python's `Optional[...]` / `None`. */
  datatype Option<+T> = None | Some(value: T)

  /** The outcome of a step that either yields a value or raises. */
  datatype Result<+T, +E> = Ok(value: T) | Err(error: E)
}
