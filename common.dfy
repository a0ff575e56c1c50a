/** Values shared by every service: optional values, the failures a service
    raises, and the result of an operation that may raise one. */
module Common {

  /** An optional value; `None` stands for JavaScript's `undefined`/`null`. */
  datatype Option<T> = None | Some(value: T)

  /** What a service throws: a NestJS `HttpException` (status and message),
      or a plain JavaScript `Error`, which the framework answers with 500. */
  datatype Failure =
    | HttpError(status: int, message: string)
    | PlainError(message: string)

  /** The outcome of an operation that may throw. */
  datatype Result<T> = Ok(value: T) | Err(failure: Failure)

  const BAD_REQUEST := 400
  const UNAUTHORIZED := 401
  const FORBIDDEN := 403
  const NOT_FOUND := 404
  const CONFLICT := 409
  const INTERNAL_SERVER_ERROR := 500
  const SERVICE_UNAVAILABLE := 503

  /** JavaScript truthiness of an optional string: present and not empty. */
  predicate Truthy(s: Option<string>) {
    s.Some? && s.value != ""
  }

  /** `s || fallback` for an optional string. */
  function OrElse(s: Option<string>, fallback: string): string {
    if Truthy(s) then s.value else fallback
  }
}
