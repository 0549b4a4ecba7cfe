/** Shared vocabulary of the model: optional values, the HTTP statuses the
    handlers answer with, and the JavaScript notion of a "truthy" body field. */
module Common {

  /** A value that may be absent (`undefined` or `null` on the JavaScript side). */
  datatype Option<+T> = None | Some(value: T)

  /** The HTTP outcomes the request handlers produce. */
  datatype Status =
    | Ok
    | Created
    | BadRequest
    | Unauthorized
    | Forbidden
    | NotFound
    | Conflict
    | InternalServerError
    | ServiceUnavailable

  /** A handler result: a value, or the error status the handler answers with. */
  datatype Result<+T> = Success(value: T) | Failure(status: Status)

  /** A string field of a JSON body is truthy when it is present and non-empty;
      `!field` in the handlers is the negation of this. */
  predicate Truthy(f: Option<string>) {
    f.Some? && f.value != ""
  }
}
