/** The optional values, results and errors shared by the consolidator model. */
module Wrappers {

  /** A value that may be missing: Python's `None` versus a present value. */
  datatype Option<+T> = None | Some(value: T)

  /** The outcome of an operation that may raise: a value or the error raised. */
  datatype Result<+R, +E> = Success(value: R) | Failure(error: E)

  /** The error a Python dictionary subscript `d[key]` raises when `key` is absent. */
  datatype KeyError = KeyError(key: string)
}
