/** Optional values and error-only outcomes, used across the relay model. */
module Wrappers {

  /** An optional value: a JSON member that is present, or absent. */
  datatype Option<+T> = None | Some(value: T)

  /** The result of an operation that returns only an error, like a Go `error` value:
      `Pass` is `nil`, `Fail(e)` is a non-nil error `e`. */
  datatype Outcome<+E> = Pass | Fail(error: E)
}
