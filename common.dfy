/** Shared vocabulary of the billing backend: identifiers, optional values,
    results and the error kinds the API layer turns into HTTP responses. */
module Common {

  /** Row identifiers (uuid4 strings in the database), company ids included. */
  type Id = string

  datatype Option<+T> = None | Some(value: T) {
    function GetOr(default: T): T {
      match this
      case Some(v) => v
      case None => default
    }
  }

  /** A handler either produces a value or fails with one error; `:-` propagates the error. */
  datatype Result<+T, +E> = Ok(value: T) | Err(error: E) {
    predicate IsFailure() { Err? }

    function PropagateFailure<U>(): Result<U, E>
      requires Err?
    {
      Err(error)
    }

    function Extract(): T
      requires Ok?
    {
      value
    }
  }

  /** A check that passes or fails with an error and carries no value. */
  datatype Outcome<+E> = Pass | Fail(error: E) {
    predicate IsFailure() { Fail? }

    function PropagateFailure<U>(): Result<U, E>
      requires Fail?
    {
      Err(error)
    }
  }

  /** The error kinds raised by the core, each with the detail text the source attaches. */
  datatype Error =
    | Unauthorized(detail: string)  // 401
    | NotFound(detail: string)      // 404, also for rows owned by another company
    | Locked(detail: string)        // 409, invoice is paid or void
    | Conflict(detail: string)      // 409, transition not in the table
    | Validation(detail: string)    // 422, request rejected before any lookup or write
}
