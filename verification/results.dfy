/** Optional values, results and the configuration errors the chart widget raises. */
module Results {

  datatype Option<+T> = None | Some(value: T) {

    /** The wrapped value, or `default` when there is none (PHP's `??`). */
    function GetOr(default: T): T {
      match this
      case Some(v) => v
      case None => default
    }
  }

  datatype Result<+T, +E> = Ok(value: T) | Err(error: E) {

    predicate IsFailure() {
      Err?
    }

    function PropagateFailure<U>(): Result<U, E>
      requires Err?
    {
      Err(error)
    }

    function Extract(): T
      requires Ok?
    {
      value
    }
  }

  /** The two exception messages the chart widget throws while it is being configured. */
  datatype ConfigError =
    | MissingParameter(name: string)   // "The parameter (^1) of ^2 is required"
    | InvalidParameter(name: string)   // "Invalid parameter (^1) in ^2"
}
