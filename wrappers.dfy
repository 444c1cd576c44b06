/** The two failure-carrying wrappers the model needs. */
module Wrappers {

  /** A value that may be missing (Python's `None`). */
  datatype Option<+T> = None | Some(value: T)

  /** The outcome of an operation that either completes or raises `error`. */
  datatype Outcome<+E> = Pass | Fail(error: E)
}
