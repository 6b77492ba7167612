/** Optional values and error-carrying results, shared by every module of the model. */
module Prelude {

  /** Python's `Optional[T]`: `None` or a present value. */
  datatype Option<+T> = None | Some(value: T)

  /** A value, or the errors that prevented building it. */
  datatype Result<+T, +E> = Ok(value: T) | Err(error: E)
}
