/** Failure-carrying values: the model's stand-in for the exceptions the
    C# code throws, and for nullable references. */
module Wrappers {

  /** `None` plays the part of a null reference. */
  datatype Option<+T> = None | Some(value: T)

  /** The value a function computes, or the error it would have thrown. */
  datatype Result<+R, +E> = Success(value: R) | Failure(error: E)

  /** The outcome of an operation run for its effect alone: it completed or threw. */
  datatype Outcome<+E> = Pass | Fail(error: E)
}
