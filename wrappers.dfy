/** Failure-compatible wrappers used throughout the model. */
module Wrappers {

  /** An optional value; stands for a Python value that may be `None`. */
  datatype Option<+T> = None | Some(value: T)

  /** A computation that either produces a value or fails with an error. */
  datatype Result<+R, +E> = Success(value: R) | Failure(error: E)

  /** Python truthiness of an `Optional[bool]` flag: only an explicit `True` is truthy. */
  predicate IsTruthy(flag: Option<bool>)
  {
    flag == Some(true)
  }
}
