/**
 * Option stands for JavaScript's nullable values (`null`/`undefined`);
 * Result for a computation that either yields a value or throws.
 */
module Wrappers {

  datatype Option<+T> = None | Some(value: T)

  datatype Result<+T, +E> = Success(value: T) | Failure(error: E)
}
