/** Failure-carrying values: an absent value (Python's `None`) and the
    outcome of a call that may raise. */
module Wrappers {

  /** A value that may be absent; `None` stands for Python's `None`. */
  datatype Option<+T> = None | Some(value: T)

  /** The outcome of a call: the value it returned, or what it raised. */
  datatype Result<+R, +E> = Success(value: R) | Failure(error: E)
}
