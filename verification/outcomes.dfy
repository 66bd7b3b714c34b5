/** Optional values, results of throwing calls, and errors raised by
    frameworks outside the model. */
module Outcomes {

  /** Swift's `T?`; Python's value-or-`None`. */
  datatype Option<+T> = None | Some(value: T) {

    /** The value, or `default` when there is none (Swift's `??`). */
    function GetOr(default: T): T {
      match this
      case Some(v) => v
      case None => default
    }
  }

  /** A call that either returns a value or throws an error. Usable with `:-`. */
  datatype Result<+T, +E> = Ok(value: T) | Err(error: E) {

    predicate IsFailure() {
      Err?
    }

    function PropagateFailure<U>(): Result<U, E>
      requires Err?
    {
      Err(error)
    }

    function Extract(): T
      requires Ok?
    {
      value
    }
  }

  /** An error thrown by a framework the model does not look into
      (URLSession, CLGeocoder, ...), known only by its `localizedDescription`. */
  datatype Cause = Cause(description: string)
}
