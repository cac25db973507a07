/** Option, Result and Outcome: the failure-carrying values used across the model
    in place of JavaScript's `undefined` and thrown errors. */
module Wrappers {

  datatype Option<+T> = None | Some(value: T)

  datatype Result<+R, +E> = Success(value: R) | Failure(error: E)

  /** The result of an async operation that returns nothing: it resolves (Pass)
      or rejects with an error (Fail). */
  datatype Outcome<+E> = Pass | Fail(error: E)
}
