/** Optional values and success/failure results shared by both components. */
module Outcomes {

  datatype Option<+T> = None | Some(value: T)

  /** A computation that either yields a value or fails with the error the source raises. */
  datatype Result<+T, +E> = Success(value: T) | Failure(error: E)
}
