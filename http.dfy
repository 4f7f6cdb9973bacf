/** The error responses the API routes return, and the status test `fetch` applies. */
module Http {

  /**
   * The `error` text of an error response: a fixed message written in the
   * route, or a prefix followed by the text of an exception raised by the
   * runtime or a library (a TypeError, a store validation error, a JSON
   * parse error), whose wording is not part of this model.
   */
  datatype Reason = Text(message: string) | Thrown(prefix: string)

  /** A response `{ success: false, error }` with an HTTP status. */
  datatype Failure = Failure(status: int, reason: Reason)

  /** `Response.ok`: the status is in the 2xx range. */
  predicate IsOk(status: int) {
    200 <= status <= 299
  }

  /** The status of a successful route response (NextResponse.json's default). */
  const OkStatus: int := 200
}
