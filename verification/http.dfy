/**
 * What the route handlers hand back to the framework, and the JavaScript
 * truthiness rules for the query-string and environment values they read.
 */
module Http {
  import opened Wrappers

  /** `NextResponse.json(body, {status})`: a status code and a JSON body. */
  datatype Response<+P> = Response(status: int, body: Body<P>)

  /** `{ error: message }` or a data payload. */
  datatype Body<+P> = ErrorMessage(message: string) | Json(payload: P)

  const Ok: int := 200
  const BadRequest: int := 400
  const NotFound: int := 404
  const InternalError: int := 500

  /**
   * A query parameter or environment variable as JavaScript tests it with
   * `if (x)`: present and not the empty string.
   */
  predicate Truthy(o: Option<string>) {
    o.Some? && o.value != ""
  }

  /** `x || fallback` for an optional string. */
  function OrElse(o: Option<string>, fallback: string): (r: string)
    ensures Truthy(o) ==> r == o.value
    ensures !Truthy(o) ==> r == fallback
  {
    if Truthy(o) then o.value else fallback
  }
}
