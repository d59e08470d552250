/** Failure-compatible result types shared by every module of the model. */
module Wrappers {

  /** A value that may be absent: JavaScript `null`/`undefined`, Python `None`. */
  datatype Option<+T> = None | Some(value: T) {
    function GetOr(default: T): T {
      match this
      case Some(v) => v
      case None => default
    }
  }

  /** The outcome of an operation that may throw or report an error. */
  datatype Result<+R, +E> = Success(value: R) | Failure(error: E)

  /**
   * An HTTP reply: either the JSON body of a 200 response, or an error
   * status with the message the handler puts in its `error` field.
   */
  datatype Response<+T> = Ok(body: T) | Fail(status: int, message: string)

  /** JavaScript truthiness of an optional string: present and non-empty. */
  predicate Given(s: Option<string>) {
    s.Some? && s.value != ""
  }
}
