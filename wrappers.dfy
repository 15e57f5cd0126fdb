/** Option and Result, the two small sum types that stand for Python's `None` and
    for a value-or-exception throughout the model. */
module Wrappers {

  datatype Option<+T> = None | Some(value: T)

  datatype Result<+T, +E> = Success(value: T) | Failure(error: E)
}
