/** Optional values and pass/fail outcomes used across the model. */
module Wrappers {

  /** An optional value: `None` stands for JavaScript's `undefined`. */
  datatype Option<+T> = None | Some(value: T)

  /** The outcome of an operation that either succeeds or throws. */
  datatype Outcome<+E> = Pass | Fail(error: E)
}
