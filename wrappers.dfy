/** Stock failure-carrying datatypes used across the model. */
module Wrappers {

  /** A value that may be absent: the model's stand-in for a null pointer or an empty std::function. */
  datatype Option<+T> = None | Some(value: T)

  /** The result of a call that either returns normally or throws `error`. */
  datatype Outcome<+E> = Pass | Fail(error: E)

  /** The result of a call that either produces `value` or throws `error`. */
  datatype Result<+R, +E> = Success(value: R) | Failure(error: E)
}
