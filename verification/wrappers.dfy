/** Failure-compatible wrappers used throughout the model: `Option` stands for
    a .NET reference that may be null, `Result` for a call that may throw. */
module Wrappers {

  datatype Option<+T> = None | Some(value: T) {

    /** The value, or `default` when the reference is null (C#'s `??`). */
    function GetOr(default: T): T {
      match this
      case Some(v) => v
      case None => default
    }
  }

  datatype Result<+R, +E> = Success(value: R) | Failure(error: E) {

    predicate IsFailure() {
      Failure?
    }

    function PropagateFailure<U>(): Result<U, E>
      requires Failure?
    {
      Failure(error)
    }

    function Extract(): R
      requires Success?
    {
      value
    }
  }
}

/** The .NET exceptions the modelled code can raise. */
module Exceptions {

  datatype Exception =
    | ArgumentNullException
    | ArgumentException
    | ArgumentOutOfRangeException
    | NullReferenceException
}
