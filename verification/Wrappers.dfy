module Wrappers {
  /** A value or the message of the error the original raises. */
  datatype Result<+T> = Ok(value: T) | Err(message: string)

  datatype Option<+T> = None | Some(value: T)
}
