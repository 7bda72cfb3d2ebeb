/** Failure-compatible results: a Python call that either returns normally or raises. */
module Wrappers {

  /** The outcome of a call that returns nothing: it completes (Pass) or raises (Fail). */
  datatype Outcome<+E> = Pass | Fail(error: E)

  /** The outcome of a call that returns a value or raises. */
  datatype Result<+R, +E> = Success(value: R) | Failure(error: E)
}
