/** Failure-compatible result types shared by every module of the model. */
module Wrappers {

  datatype Option<T> = None | Some(value: T)

  /** An HTTP rejection as the routers raise it: a status code and a short reason tag. */
  datatype HttpError = HttpError(status: int, reason: string)

  /** The value of an endpoint or helper that either returns or raises an HTTPException. */
  datatype Result<T> = Ok(value: T) | Err(error: HttpError)

  /** The outcome of a check that returns nothing or raises. */
  datatype Outcome = Pass | Fail(error: HttpError)

  /** Python truthiness of an optional string: neither None nor "". */
  predicate Truthy(s: Option<string>) {
    s.Some? && s.value != ""
  }

  /** Python's `s or default` on an optional string. */
  function OrElse(s: Option<string>, default: string): (r: string)
    ensures Truthy(s) ==> r == s.value
    ensures !Truthy(s) ==> r == default
  {
    if Truthy(s) then s.value else default
  }

  /** A field of a partial update: the sent value, or the current one when the field
      was not sent. */
  function Pick<T>(sent: Option<T>, current: T): T {
    if sent.Some? then sent.value else current
  }
}
