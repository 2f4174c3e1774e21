/** Optional values and error-carrying results: Python's `None` and raised exceptions. */
module Outcomes {

  datatype Option<T> = None | Some(value: T)
  {
    predicate IsSome() { this.Some? }

    /** `value or default` for an optional value. */
    function GetOr(default: T): T
    {
      match this
      case Some(v) => v
      case None => default
    }
  }

  /** The outcome of a call that may raise: `Err` carries the exception's text (`str(e)`). */
  datatype Result<T> = Ok(value: T) | Err(error: string)
  {
    predicate IsOk() { this.Ok? }
  }

  /**
   * Which form of an operation a member follows: the source as written, or with the
   * defect it exhibits corrected (the corrections are listed among the findings).
   */
  datatype Version = AsWritten | Corrected
}
