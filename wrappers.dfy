/** Optional values and HTTP-style replies shared by every handler of the model. */
module Wrappers {

  /** A value that may be absent (`undefined` / `null` in the application). */
  datatype Option<+T> = None | Some(value: T) {
    function GetOr(default: T): T {
      match this
      case Some(v) => v
      case None => default
    }
  }

  /** What a request handler answers: a success body, or an HTTP error status with its error text. */
  datatype Reply<+T> = Ok(value: T) | Fail(status: nat, error: string)

  const BadRequest: nat := 400
  const Unauthorized: nat := 401
  const Forbidden: nat := 403
  const NotFound: nat := 404
}
