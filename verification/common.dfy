/**
 This module holds the small value types shared by the handlers of the
 service: an optional value, the outcome of a handler (a JSON body with
 status 200, or an error message with its HTTP status), and the outcome of
 a call to the upstream racing-data API.
 */
module Common {

  /** A value that may be missing, as a JSON field or a query parameter may be. */
  datatype Option<+T> = None | Some(value: T)

  /** Python's `not s` for a value that is either a string or None: true for
      a missing value and for the empty string. */
  predicate Blank(s: Option<string>) {
    s.None? || s.value == ""
  }

  /** What a request handler answers: a body sent with status 200, or an
      `{"error": message}` body sent with the given status. */
  datatype Response<+T> = Ok(body: T) | Error(status: int, message: string) {

    /** The HTTP status code of the response. */
    function Status(): int {
      match this
      case Ok(_) => 200
      case Error(code, _) => code
    }
  }

  /** The result of asking the upstream API for a document: either the part
      of the JSON envelope the handler reads, or a `RequestException`
      (network failure or a non-success HTTP status). */
  datatype Fetch<+T> = Fetched(value: T) | FetchFailed
}
