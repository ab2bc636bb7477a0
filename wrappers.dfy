/** Failure-carrying values: Go's `nil`-or-value and `(value, error)` returns. */
module Wrappers {

  /** A value that may be absent (a Go `*T` that may be nil, or an error that may be nil). */
  datatype Option<+T> = None | Some(value: T)

  /** Either a value or the error that replaced it (a Go `(T, error)` pair with exactly one of them set). */
  datatype Result<+T, +E> = Ok(value: T) | Err(error: E)
}
