/** Failure and absence: a missing DynamoDB attribute is `None`, a raised Python exception is `Failure`. */
module Wrappers {
  datatype Option<+T> = None | Some(value: T)

  datatype Result<+T, +E> = Success(value: T) | Failure(error: E)
}
