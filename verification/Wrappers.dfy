/** Optional values and results shared by every component model. */
module Wrappers {
  datatype Option<+T> = None | Some(value: T)

  /** `Fail` stands for an exception raised by the original operation. */
  datatype Result<+T, +E> = Ok(value: T) | Fail(error: E)
}
