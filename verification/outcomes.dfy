/** Option and Result values used wherever the modelled code returns `undefined`,
    throws, or raises: the error path is a value, never a precondition. */
module Outcomes {

  datatype Option<+T> = None | Some(value: T)

  datatype Result<+T, +E> = Ok(value: T) | Err(error: E)
}
