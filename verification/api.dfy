/** lib/api.ts: JSON error responses and the mapping of thrown values to HTTP
    status codes. */
module Api {

  /** The class of a thrown `Error`; every one of them is an `Error` subclass,
      so `error instanceof Error` holds and only the message is inspected by
      `HandleApiError`. */
  datatype ErrorClass =
    | PlainError
    | ZodError
    | SyntaxError
    | TypeError
    | PrismaKnownRequest(code: string)
    | PrismaUnknownRequest
    | PrismaValidation
    | PrismaInitialization

  /** A thrown value: an `Error` with a message, or anything else. */
  datatype Thrown = Error(cls: ErrorClass, message: string) | NonError

  const UnauthorizedMarker := "UNAUTHORIZED"
  const ForbiddenMarker := "FORBIDDEN"

  const Unauthorized: Thrown := Error(PlainError, UnauthorizedMarker)
  const Forbidden: Thrown := Error(PlainError, ForbiddenMarker)

  /** A schema-parse failure. Its message is the issue list rendered as a JSON
      array, so it starts with '['; the issues themselves are not modelled. */
  function SchemaFailure(issues: string): (e: Thrown)
    ensures e.Error? && e.cls == ZodError && e.message != [] && e.message[0] == '['
  {
    Error(ZodError, "[" + issues + "]")
  }

  /** A response body: `{error}`, `{code, error}`, or a JSON payload. */
  datatype Body<+T> = ErrorBody(error: string) | CodedErrorBody(code: string, error: string) | Json(value: T)

  datatype Response<+T> = Response(status: int, body: Body<T>)

  /** `apiError(status, message)`: the given status with body `{error: message}`. */
  function ApiError<T>(status: int, message: string): Response<T>
  {
    Response(status, ErrorBody(message))
  }

  function Ok<T>(value: T): Response<T>
  {
    Response(200, Json(value))
  }

  function Created<T>(value: T): Response<T>
  {
    Response(201, Json(value))
  }

  /** `handleApiError`: the two markers become 401 and 403; every other
      `Error` and every non-`Error` value becomes 500. */
  function HandleApiError<T>(e: Thrown): (r: Response<T>)
    ensures r.status == 401 <==> e.Error? && e.message == UnauthorizedMarker
    ensures r.status == 403 <==> e.Error? && e.message == ForbiddenMarker
    ensures r.status == 500 <==> !(e.Error? && e.message in {UnauthorizedMarker, ForbiddenMarker})
    ensures r.status == 401 ==> r.body == ErrorBody("Unauthorized")
    ensures r.status == 403 ==> r.body == ErrorBody("Forbidden")
    ensures r.status == 500 ==> r.body == ErrorBody("Internal server error")
  {
    if e.Error? && e.message == UnauthorizedMarker then ApiError(401, "Unauthorized")
    else if e.Error? && e.message == ForbiddenMarker then ApiError(403, "Forbidden")
    else ApiError(500, "Internal server error")
  }

  /** A schema-parse failure never reads as a marker, so it always ends as 500. */
  lemma SchemaFailureIs500<T>(issues: string)
    ensures HandleApiError<T>(SchemaFailure(issues)).status == 500
  {
    var e := SchemaFailure(issues);
    assert e.message[0] == '[';
    assert UnauthorizedMarker[0] == 'U' && ForbiddenMarker[0] == 'F';
  }
}
