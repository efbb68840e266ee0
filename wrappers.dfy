/** Option, Result and Outcome: Python's `None`, raised exceptions and
    "returned normally" as values. */
module Wrappers {

  /** A value that may be absent; Python's `None` is `None`. */
  datatype Option<+T> = None | Some(value: T)

  /** A computed value, or the exception that was raised instead. */
  datatype Result<+T, +E> = Ok(value: T) | Err(error: E)

  /** A call that returns nothing: it returned normally, or it raised. */
  datatype Outcome<+E> = Pass | Fail(error: E)
}
