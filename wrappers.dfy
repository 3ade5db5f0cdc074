/** Option and Result, the two failure-carrying types the model uses for
    Python's `None`, its exceptions and its error returns. */
module Wrappers {

  datatype Option<+T> = None | Some(value: T)

  /** `Failure` stands for an exception that the Python code lets propagate
      (or that the model turns into a value at an explicit boundary). */
  datatype Result<+T, +E> = Success(value: T) | Failure(error: E)
}
