/** JavaScript's `null`/absent values and the routes' replies. */
module Wrappers {

  /** A value that may be `null` (or absent) in the source. */
  datatype Option<+T> = None | Some(value: T) {
    function GetOr(default: T): T {
      match this
      case Some(v) => v
      case None => default
    }
  }

  /** The outcome of a step that can fail with a message. */
  datatype Result<+T> = Success(value: T) | Failure(error: string)

  /** What an HTTP route handler answers: a JSON body with `ok: true`
      (status 200), a redirect, or `ok: false` with a status and an error text. */
  datatype Reply<+T> = Ok(value: T) | Redirect(location: string) | Fail(status: int, error: string) {
    function HttpStatus(): int {
      match this
      case Ok(_) => 200
      case Redirect(_) => 307
      case Fail(s, _) => s
    }
  }
}
