/** Failure-compatible wrappers shared by every module of the model:
    `Option` for JavaScript's "maybe absent" values and `Result` for
    operations that can throw. A thrown JavaScript error is modelled by
    `Failure(message)`, the message being what `e.message` would read. */
module Wrappers {

  datatype Option<+T> = None | Some(value: T) {

    function GetOr(default: T): T {
      match this
      case Some(v) => v
      case None => default
    }
  }

  datatype Result<+R, +E> = Success(value: R) | Failure(error: E) {

    predicate IsFailure() {
      Failure?
    }

    function PropagateFailure<U>(): Result<U, E>
      requires Failure?
    {
      Failure(error)
    }

    function Extract(): R
      requires Success?
    {
      value
    }
  }
}
