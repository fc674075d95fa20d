/** Failure-compatible wrappers used in place of Java's `null` results and thrown exceptions. */
module Wrappers {

  /** `None` stands for a Java `null` result. */
  datatype Option<+T> = None | Some(value: T)

  /** The value of a call that returns normally, or the exception it throws. */
  datatype Result<+T, +E> = Success(value: T) | Failure(error: E)

  /** The effect of a `void` method: it returns normally or throws. */
  datatype Outcome<+E> = Pass | Fail(error: E)
}
