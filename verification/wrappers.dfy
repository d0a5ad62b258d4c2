/** Option and Result: the "value or nothing" and "value or error" wrappers used
    throughout the model in place of Python's None and raised exceptions. */
module Wrappers {

  datatype Option<+T> = None | Some(value: T)

  datatype Result<+T, +E> = Ok(value: T) | Err(error: E)
}
