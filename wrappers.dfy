/** Optional values and success-or-failure results used throughout the model. */
module Wrappers {

  datatype Option<+T> = None | Some(value: T)

  /** `Failure(e)` carries the text of an error; where a Python function raises,
      `e` is the `str()` of the exception it raises. */
  datatype Result<+T, +E> = Success(value: T) | Failure(error: E)
}
