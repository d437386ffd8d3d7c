/** Option, Result and thrown-error values shared by the view models. */
module Wrappers {
  /** A JavaScript value that may be `undefined`/`null` (None) or present. */
  datatype Option<+T> = None | Some(value: T)

  /** The settlement of a computation that either yields a value or throws. */
  datatype Result<+T, +E> = Success(value: T) | Failure(error: E)

  /** What a thrown error carries: an `Error` with a message, or a `TypeError` reading a property of undefined. */
  datatype JsError = Error(message: string) | TypeError(property: string)
}
