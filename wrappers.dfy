/** Optional values and error results, standing in for JavaScript's
    `undefined` and for the program's `process.exit(1)` error paths. */
module Wrappers {

  datatype Option<+T> = None | Some(value: T)

  datatype Result<+T, +E> = Success(value: T) | Failure(error: E)

  /** Success or failure without a value. */
  datatype Outcome<+E> = Pass | Fail(error: E)
}
