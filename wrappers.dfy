/** Option and Result values: Python's `None` default and the success/failure
    outcome of calls that can raise. */
module Wrappers {

  datatype Option<+T> = None | Some(value: T)

  datatype Result<+T, +E> = Ok(value: T) | Err(error: E)
}
