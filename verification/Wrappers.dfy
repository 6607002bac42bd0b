/** Failure values shared by the services. The HTTP error kinds are those of internal/httpx; the
    message texts of the source are not part of the model. */
module Wrappers {

  /** `Diverges` stands for a call of the source that never returns. */
  datatype Error = BadRequest | NotFound | Conflict | Unauthorized | Internal | Diverges

  datatype Option<+T> = None | Some(value: T)

  datatype Result<+T> = Ok(value: T) | Err(error: Error) {
    predicate IsFailure() { Err? }

    function PropagateFailure<U>(): Result<U>
      requires Err?
    {
      Err(error)
    }

    function Extract(): T
      requires Ok?
    {
      value
    }
  }

  /** The outcome of a check that carries no value. */
  datatype Outcome = Pass | Fail(error: Error) {
    predicate IsFailure() { Fail? }

    function PropagateFailure<U>(): Result<U>
      requires Fail?
    {
      Err(error)
    }
  }
}
