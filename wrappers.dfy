/** Option and Result, used for the store's answers and the module lookups. */
module Wrappers {

  /** A value that may be absent (`null` / `undefined` in the services). */
  datatype Option<+T> = None | Some(value: T)

  /** An awaited call that either resolves to a value or rejects with an error. */
  datatype Result<+T, +E> = Success(value: T) | Failure(error: E)
}
