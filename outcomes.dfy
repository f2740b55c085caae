/**
 * What a client operation ends in. Go returns a zero value together with
 * an error wrapping one of the package's sentinel errors, or panics on a
 * 406; here each of those is one variant of `Outcome`, carrying the
 * context (body, URL, status line) the Go error message is built from.
 */
module Outcomes {
  import opened Wrappers
  import opened Http

  /** The context an error carries: nothing, the response body, or the request URL. */
  datatype Detail = Bare | Body(body: string) | Url(url: string)

  /**
   * Why an error is "unknown": a status the switch does not name (status
   * line and body), or, in the record operations, an envelope that failed
   * to decode (the decoder's message).
   */
  datatype Cause = UnexpectedStatus(status: string, body: string) | BadEnvelope(message: string)

  datatype Outcome<+T> =
    | Success(value: T)
    | BadRequest(detail: Detail)
    | Unauthorized(detail: Detail)
    | Forbidden(detail: Detail)
    | NotFound(detail: Detail)
    | Unprocessable(detail: Detail)
    | Unknown(cause: Cause)
      // a decoding error returned as it is, not wrapped as unknown
    | DecodeFailed(message: string)
      // the transport's own error, returned unchanged
    | TransportFailed(message: string)
      // the 406 panic
    | Fatal406
  {
    /** The status switch let the response through to the decoding of its body. */
    predicate ReachedDecoding()
    {
      Success? || DecodeFailed? || (Unknown? && cause.BadEnvelope?)
    }
  }

  /** The answer the transport gives to one request, with what decoding its body yields. */
  datatype Reply<+E> =
    | NoResponse(message: string)
    | Answered(response: Response, envelope: Result<E, string>)

  /** The row of a status table an outcome belongs to, without its context. */
  datatype Kind =
    | Decoding
    | BadRequestError
    | UnauthorizedError
    | ForbiddenError
    | NotFoundError
    | UnprocessableError
    | UnknownError
    | TransportError
    | Fatal

  function KindOf<T>(o: Outcome<T>): (k: Kind)
    ensures k == Decoding <==> o.ReachedDecoding()
  {
    match o
    case Success(_) => Decoding
    case DecodeFailed(_) => Decoding
    case Unknown(BadEnvelope(_)) => Decoding
    case Unknown(UnexpectedStatus(_, _)) => UnknownError
    case BadRequest(_) => BadRequestError
    case Unauthorized(_) => UnauthorizedError
    case Forbidden(_) => ForbiddenError
    case NotFound(_) => NotFoundError
    case Unprocessable(_) => UnprocessableError
    case TransportFailed(_) => TransportError
    case Fatal406 => Fatal
  }

  /**
   * A uniform reference table: the operation's success status decodes,
   * 400, 401, 403, 404 and 422 are their named errors, 406 is fatal, any
   * other status is unknown. Each operation's own switch is compared
   * against it, to say exactly where the operations differ.
   */
  function UniformKind(status: int, success: int): Kind
  {
    if status == success then Decoding
    else if status == StatusBadRequest then BadRequestError
    else if status == StatusUnauthorized then UnauthorizedError
    else if status == StatusForbidden then ForbiddenError
    else if status == StatusNotFound then NotFoundError
    else if status == StatusNotAcceptable then Fatal
    else if status == StatusUnprocessableEntity then UnprocessableError
    else UnknownError
  }
}
