/** Failure-carrying values: Python exceptions and `None` become data. */
module Wrappers {

  /** An optional value, as returned by `os.getenv` or an absent request field. */
  datatype Option<+T> = None | Some(value: T)

  /** A value, or the error that was raised instead of producing it. */
  datatype Result<+T, +E> = Ok(value: T) | Err(error: E)

  /** Success without a value, or the error that was raised. */
  datatype Outcome<+E> = Pass | Fail(error: E)
}
