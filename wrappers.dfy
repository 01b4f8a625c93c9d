/** Option and Result, the usual failure-compatible wrappers. */
module Wrappers {

  /** `None` stands for an absent value: an `undefined` field, or the `null`
      of a failed match. */
  datatype Option<+T> = None | Some(value: T)

  /** `Failure` stands for an exception that a statement throws (or a rejected promise). */
  datatype Result<+R, +E> = Success(value: R) | Failure(error: E)
}
