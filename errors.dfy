/** The error type of every route and its HTTP status (src/errors.rs). */
module Errors {

  datatype AppError =
    | BadUserID
    | BadSessionID
    | BadAccessToken
    | SessionIDDoesNotExist
    | PageTooLarge
    | ResponseTooLarge
    | ServerError

  /** Rust's `Result<T, AppError>`. */
  datatype Result<+T> = Ok(value: T) | Err(error: AppError)

  const BadRequest: nat := 400
  const Unauthorized: nat := 401
  const NotFound: nat := 404
  const PayloadTooLarge: nat := 413
  const InternalServerError: nat := 500

  /** `ResponseError::status_code`: the HTTP status every error is answered with. */
  function StatusCode(e: AppError): (code: nat)
    ensures 400 <= code < 600
    ensures code == BadRequest <==> e == BadUserID || e == BadSessionID
    ensures code == Unauthorized <==> e == BadAccessToken
    ensures code == NotFound <==> e == SessionIDDoesNotExist
    ensures code == PayloadTooLarge <==> e == PageTooLarge || e == ResponseTooLarge
    ensures code >= 500 <==> e == ServerError
    ensures code >= 500 ==> code == InternalServerError
  {
    match e
    case BadUserID => BadRequest
    case BadSessionID => BadRequest
    case SessionIDDoesNotExist => NotFound
    case BadAccessToken => Unauthorized
    case PageTooLarge => PayloadTooLarge
    case ResponseTooLarge => PayloadTooLarge
    case ServerError => InternalServerError
  }
}
