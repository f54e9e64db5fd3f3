/** Option and Result, the two failure-carrying datatypes the model uses in
    place of Java's null and exceptions. */
module Wrappers {

  /** Some value, or None where the Java code has null. */
  datatype Option<+T> = None | Some(value: T)

  /** Either a value or an error, where the Java code returns or throws. */
  datatype Result<+T, +E> = Success(value: T) | Failure(error: E)
}
