/** Failure-carrying values shared by every router model. */
module Wrappers {

  /** Python's `Optional[T]`: `None` or a present value. */
  datatype Option<+T> = None | Some(value: T) {

    function GetOr(default: T): T {
      match this
      case Some(v) => v
      case None => default
    }
  }

  /** The outcome of a request handler: a value, or the HTTP status code
      and detail message of the `HTTPException` (or error response) it raises. */
  datatype Result<+T> = Ok(value: T) | Fail(code: int, detail: string) {

    predicate IsFailure() {
      Fail?
    }

    function PropagateFailure<U>(): Result<U>
      requires Fail?
    {
      Fail(code, detail)
    }

    function Extract(): T
      requires Ok?
    {
      value
    }
  }
}
