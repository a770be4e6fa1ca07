/** Small shared vocabulary. */
module Common {

  datatype Option<+T> = None | Some(value: T)

  /** How a service call ends: normally, or with the exception it throws. */
  datatype Reply =
    | Ok
    | NotFound
    | Forbidden
    | BadRequest
    | Conflict
    | Unauthorized
    | UniqueViolation  // the database refused a row: primary key or unique index

  /** The outcome of the checks that precede a write. */
  datatype Check<+T> = Pass(value: T) | Fail(reply: Reply)
}
