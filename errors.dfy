/** HTTP errors as the routes raise them (FastAPI's HTTPException) and the
    calendar bridge's own error type. */
module Errors {

  const BadRequest := 400
  const Unauthorized := 401
  const Forbidden := 403
  const NotFound := 404
  const InternalServerError := 500

  /** An HTTPException: status code, detail text and extra response headers. */
  datatype HttpException = HttpException(statusCode: int, detail: string, headers: map<string, string>)

  /** The `WWW-Authenticate: Bearer` challenge sent with every 401. */
  const BearerChallenge: map<string, string> := map["WWW-Authenticate" := "Bearer"]

  function Raise(statusCode: int, detail: string): HttpException {
    HttpException(statusCode, detail, map[])
  }

  /** GoogleCalendarError: a business exception that only carries its detail. */
  datatype GoogleCalendarError = GoogleCalendarError(detail: string)

  /** As FastAPI would answer it: always status 500, never extra headers. */
  function AsHttp(e: GoogleCalendarError): (h: HttpException)
    ensures h.statusCode == InternalServerError && h.detail == e.detail && h.headers == map[]
  {
    Raise(InternalServerError, e.detail)
  }
}
