/** Option and Result, used for absent fields, parse failures and error replies. */
module Wrappers {

  datatype Option<+T> = None | Some(value: T) {
    function GetOr(default: T): T {
      match this
      case Some(v) => v
      case None => default
    }
  }

  datatype Result<+R, +E> = Success(value: R) | Failure(error: E)

  /**
   * The outcome of one awaited HTTP call: its value, or a thrown error that
   * carries the `error` text of the server's reply when there was one.
   */
  datatype Reply<+T> = Ok(value: T) | Thrown(serverError: Option<string>)
}
