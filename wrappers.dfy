/** Option and Result, the failure-compatible wrappers used throughout the model.
    A PHP `null` is `None`; a thrown exception is `Err(message)`. */
module Wrappers {

  datatype Option<+T> = None | Some(value: T) {
    /** `$x ?? $default` once `$x` is known to be null-or-value. */
    function UnwrapOr(default: T): T {
      match this
      case Some(v) => v
      case None => default
    }

    /** `$x ?? $y` where both sides may be null. */
    function OrElse(other: Option<T>): Option<T> {
      match this
      case Some(_) => this
      case None => other
    }
  }

  datatype Result<+T, +E> = Ok(value: T) | Err(error: E) {
    predicate IsFailure() {
      Err?
    }

    function PropagateFailure<U>(): Result<U, E>
      requires Err?
    {
      Err(error)
    }

    function Extract(): T
      requires Ok?
    {
      value
    }
  }
}
