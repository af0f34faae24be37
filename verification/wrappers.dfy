/** Optional values and error-carrying results shared by every module. */
module Wrappers {
  datatype Option<T> = None | Some(value: T)
  {
    predicate IsSome() { this.Some? }

    function GetOr(default: T): T
    {
      match this
      case None => default
      case Some(v) => v
    }
  }

  /** The outcome of an operation that either produces a value or raises an error. */
  datatype Result<T, E> = Ok(value: T) | Err(error: E)
  {
    predicate IsOk() { this.Ok? }
  }
}
