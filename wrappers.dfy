/** Optional values and results with an error case, used across the model. */
module Wrappers {

  /** A value that may be absent: pandas' NaN / `None` results. */
  datatype Option<+T> = None | Some(value: T)

  /** The outcome of a step that can fail as a whole. */
  datatype Result<+T, +E> = Success(value: T) | Failure(error: E)
}
