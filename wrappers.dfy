// Option and Result types shared by every module of the model.
// A thrown Error of the original program becomes `Fail(message)`.
module Wrappers {

  datatype Option<T> = None | Some(value: T)
  {
    function GetOr(default: T): T
    {
      match this
      case None => default
      case Some(v) => v
    }
  }

  datatype Result<T> = Ok(value: T) | Fail(error: string)
  {
    predicate IsFailure()
    {
      Fail?
    }
  }

  /** A result that carries no value: success or the error raised. */
  datatype Outcome = Pass | Reject(error: string)
}
