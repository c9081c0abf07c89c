/** Python's `None`-or-value and value-or-exception outcomes, made explicit. */
module Wrappers {

  datatype Option<+T> = None | Some(value: T)

  datatype Result<+T, +E> = Success(value: T) | Failure(error: E)
}
