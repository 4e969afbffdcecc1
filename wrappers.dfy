/** Failure-compatible helper datatypes used across the model. */
module Wrappers {

  /** A value that may be absent (Python's `Optional[...]`, `None` standing for absence). */
  datatype Option<+T> = None | Some(value: T)

  /** Either a value or the error a Python `raise` would have produced. */
  datatype Result<+R, +E> = Success(value: R) | Failure(error: E)
}
