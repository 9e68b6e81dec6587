/** Option and Result, standing for Python's `None` and for raised exceptions. */
module Wrappers {

  /** `None` is Python's None; `Some(v)` a present value. */
  datatype Option<+T> = None | Some(value: T)

  /** `Ok(v)` a normal return; `Err(e)` an exception the source raises. */
  datatype Result<+T, +E> = Ok(value: T) | Err(error: E)
}
