/** Optional values and results of the request handlers. */
module Wrappers {

  datatype Option<+T> = None | Some(value: T) {
    function GetOr(default: T): T {
      match this
      case Some(v) => v
      case None => default
    }
  }

  /** The outcome of a request: a value, or the HTTP error the handler raises. */
  datatype Result<+T> = Ok(value: T) | Err(error: HttpError)

  /** An `HTTPException(status_code, detail)` raised by a handler. */
  datatype HttpError = HttpError(status: int, detail: string)
}
