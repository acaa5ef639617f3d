/** Option and Result, used wherever the Python code returns None or raises. */
module Wrappers {

  datatype Option<+T> = None | Some(value: T)

  /** Err stands for an exception the caller sees; its text is only descriptive. */
  datatype Result<+T> = Ok(value: T) | Err(reason: string)
}
