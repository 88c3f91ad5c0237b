/** Swift's optionals and throwing calls, as values. */
module Wrappers {

  /** A Swift optional: `nil` or a wrapped value. */
  datatype Option<+T> = None | Some(value: T)

  /** The outcome of a `throws` function: its return value or the error it threw. */
  datatype Result<+R, +E> = Success(value: R) | Failure(error: E)
}
