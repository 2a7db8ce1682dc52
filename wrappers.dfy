/** Optional values and results with an error, as the rest of the model uses them. */
module Wrappers {

  /** Python's `None` on one side, a present value on the other. */
  datatype Option<+T> = None | Some(value: T)

  /** The value a call returns, or the exception it raises. */
  datatype Result<+R, +E> = Success(value: R) | Failure(error: E)
}
