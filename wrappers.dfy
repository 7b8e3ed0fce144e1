/** Option and Result, the two failure-carrying value types the model uses
    for Java's nullable references, Python's None and thrown exceptions. */
module Wrappers {

  datatype Option<+T> = None | Some(value: T)

  datatype Result<+T, +E> = Success(value: T) | Failure(error: E)
}
