/** Option and Result, the failure-carrying datatypes the rest of the model uses
    in place of Java's null and checked exceptions. */
module Wrappers {

  /** A value that may be absent; None stands for a Java null. */
  datatype Option<+T> = None | Some(value: T)

  /** The outcome of an operation that either yields a value or fails with an error. */
  datatype Result<+R, +E> = Success(value: R) | Failure(error: E)
}
