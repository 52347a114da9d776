/** Optional values and outcomes of operations that can throw, shared by the model. */
module Wrappers {

  /** A value that may be missing: JavaScript's `undefined` where the source expects an object. */
  datatype Option<+T> = None | Some(value: T)

  /** The outcome of an operation that can throw: `Failure` carries the thrown error's message. */
  datatype Result<+T> = Success(value: T) | Failure(error: string)
}
