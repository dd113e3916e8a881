/** Failure-carrying values: the model's stand-in for Python's `None` and for raised exceptions. */
module Wrappers {

  datatype Option<+T> = None | Some(value: T)

  /** `Failure(message)` stands for an exception whose `str(e)` is `message`. */
  datatype Result<+R, +E> = Success(value: R) | Failure(error: E)
}
