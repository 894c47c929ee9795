/** Option and Outcome, for values the source leaves as None and for operations that raise. */
module Wrappers {

  datatype Option<+T> = None | Some(value: T)

  /** The result of an operation that either completes or raises `error`. */
  datatype Outcome<+E> = Pass | Fail(error: E)

  /** A value, or the error the source raises instead of returning one. */
  datatype Result<+T, +E> = Success(value: T) | Failure(error: E)
}
