/** Small failure-carrying datatypes shared by the model. */
module Wrappers {

  /** An optional value: a JavaScript variable that is either `undefined` or holds a value. */
  datatype Option<+T> = None | Some(value: T)

  /** The outcome of a JavaScript call that either returns a value or throws. */
  datatype Result<+T, +E> = Success(value: T) | Failure(error: E)

  /** The exceptions the modelled code can raise on its own (not the registry's errors). */
  datatype JsError = TypeError
}
