/** The errors the controllers raise and the loosely typed values a request
    body carries. */
module Api {
  import opened Wrappers

  /** An error that reaches Express's `next(error)` or is sent directly.
      BadRequest, Unauthorized, Forbidden and NotFound are the statuses 400,
      401, 403 and 404 and carry the message the controller sets; `Invalid` is a
      schema validation or cast error raised by the store, whose status is set
      by error middleware that is not part of this model; `StoreFailure` is
      an exception thrown by the store or by another collaborator. */
  datatype ApiError =
    | BadRequest(message: string)
    | Unauthorized(message: string)
    | Forbidden(message: string)
    | NotFound(message: string)
    | Invalid(path: string)
    | StoreFailure

  /** A JSON value in a request body, as far as the schema can cast it:
      strings and numbers (a date is a millisecond number or a date
      string). */
  datatype FieldValue = Text(s: string) | Number(n: int)

  /** Which store write inside an operation throws, if any (the store is
      otherwise a black box that may fail). */
  datatype Fault = NoFault | FailFirstWrite | FailSecondWrite

  /** A string argument JavaScript treats as false in `if (!value)`: absent
      or the empty string. */
  predicate Falsy(v: Option<string>)
  {
    v.None? || v.value == []
  }
}
