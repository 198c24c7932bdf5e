/** Swift's `Optional` and a thrown-or-returned outcome, as values. */
module Wrappers {

  /** `Wrapped?` in Swift: absent (`nil`) or present. */
  datatype Option<+T> = None | Some(value: T)

  /** The outcome of a Swift function that `throws`: a value, or the error it threw. */
  datatype Result<+R, +E> = Success(value: R) | Failure(error: E)
}
