/** Small failure-carrying datatypes used throughout the model. */
module Wrappers {

  /** A value that may be absent; `None` plays the part of a C# null reference. */
  datatype Option<+T> = None | Some(value: T)

  /** Either a computed value or the fault that stopped the computation. */
  datatype Result<+T, +E> = Success(value: T) | Failure(error: E)
}
