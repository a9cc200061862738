/** Option and Result values: the model's stand-ins for Java's `null` and for
    the `AssertionError` that the watch face throws on unexpected constants. */
module Outcomes {

  datatype Option<+T> = None | Some(value: T)

  datatype Result<+T, +E> = Success(value: T) | Failure(error: E)
}
