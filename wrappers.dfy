/** Optional values and results with an error, for the source's nulls and exceptions. */
module Wrappers {

  /** A value that may be absent: `None` stands for a null reference. */
  datatype Option<+T> = None | Some(value: T)

  /** The outcome of an operation that either returns a value or throws `error`. */
  datatype Result<+T, +E> = Success(value: T) | Failure(error: E)

  /** The outcome of an operation that returns nothing or throws `error`. */
  datatype Outcome<+E> = Pass | Fail(error: E)
}
