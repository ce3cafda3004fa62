/** Small failure-carrying datatypes shared by the other modules. */
module Wrappers {

  datatype Option<+T> = None | Some(value: T)

  /** The value of a call that either produced a result or returned a Go `error`. */
  datatype Result<+R> = Success(value: R) | Failure(error: string)

  /**
   * The reply of an external service to one request: it either accepted the request or
   * rejected it with an error message. The model takes these replies as parameters, so
   * every combination of service failures is covered.
   */
  datatype Reply = Accept | Reject(msg: string)
}
