module Wrappers {
  datatype Option<+T> = None | Some(value: T)

  /** A value, or the error the operator logs. */
  datatype Result<+T> = Success(value: T) | Failure(error: string)
}
