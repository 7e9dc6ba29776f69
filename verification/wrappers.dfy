/** Failure-carrying datatypes shared by the modules of this model: a Python
    `None`-or-value becomes an `Option`, a raise-or-return becomes a `Result`. */
module Wrappers {

  /** A value that may be absent (`None` in the source). */
  datatype Option<+T> = None | Some(value: T)

  /** A computation that either returns a value or raises an error. */
  datatype Result<+R, +E> = Success(value: R) | Failure(error: E)
}
