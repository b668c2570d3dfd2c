/** Option and Result, used wherever the Python code returns None or raises. */
module Wrappers {
  datatype Option<T> = None | Some(value: T)

  /** Ok carries a value; Err models a raised exception and carries its message. */
  datatype Result<T> = Ok(value: T) | Err(error: string)
}
