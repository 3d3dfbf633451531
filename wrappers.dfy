/** Failure-compatible wrappers shared by the other modules: an optional value
    (JavaScript's `undefined` versus a value), a result of an operation that can
    throw, and a pass/fail outcome of a check. */
module Wrappers {

  datatype Option<+T> = None | Some(value: T)

  datatype Result<+R, +E> = Success(value: R) | Failure(error: E)

  datatype Outcome<+E> = Pass | Fail(error: E)
}
