/** The error responses the Express handlers send, with their status codes. */
module Http {

  /** An error response; each is sent with `success: false` and its message. */
  datatype Failure =
    | BadRequest(message: string)
    | Forbidden(message: string)
    | NotFound(message: string)
    | InternalError(message: string)

  function StatusCode(f: Failure): nat {
    match f
    case BadRequest(_) => 400
    case Forbidden(_) => 403
    case NotFound(_) => 404
    case InternalError(_) => 500
  }
}
