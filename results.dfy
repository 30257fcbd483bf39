/** Option and Result wrappers shared by the model. A Python `None` return becomes
    `None`, a raised exception becomes `Failure`. */
module Results {

  datatype Option<+T> = None | Some(value: T)
  {
    function GetOr(default: T): T
    {
      match this
      case Some(v) => v
      case None => default
    }
  }

  /** Either a value or the exception that the Python code raises instead. Usable with `:-`. */
  datatype Result<+T, +E> = Success(value: T) | Failure(error: E)
  {
    predicate IsFailure()
    {
      Failure?
    }

    function PropagateFailure<U>(): Result<U, E>
      requires Failure?
    {
      Failure(error)
    }

    function Extract(): T
      requires Success?
    {
      value
    }
  }
}
