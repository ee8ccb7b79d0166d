/** Option and Result: the `Optional` values and the thrown exceptions of the source. */
module Wrappers {

  datatype Option<+T> = None | Some(value: T)

  /** `Failure` carries what the source throws; `Success` what it returns. */
  datatype Result<+T, +E> = Success(value: T) | Failure(error: E)

  /** The `void` of a method that returns normally or throws. */
  datatype Unit = Unit
}
