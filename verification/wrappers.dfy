/** Small failure-carrying datatypes shared by the other modules. */
module Wrappers {

  /** Python's `None` versus a present value. */
  datatype Option<+T> = None | Some(value: T)

  /** A result that either holds a value or records why the source raised. */
  datatype Result<+T, +E> = Ok(value: T) | Err(error: E)
}
