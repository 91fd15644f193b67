/** Failure-carrying values: the model's stand-in for JavaScript's `throw`. */
module Wrappers {

  datatype Option<+T> = None | Some(value: T)

  /** The value of a computation that either returns or throws. */
  datatype Result<+T, +E> = Ok(value: T) | Err(error: E)

  /** The outcome of a computation that returns nothing or throws. */
  datatype Outcome<+E> = Pass | Fail(error: E)
}
