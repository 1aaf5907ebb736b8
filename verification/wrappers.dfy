/** Plain wrapper datatypes shared by every module of the model:
    `Option` for the source's optionals, `Result` for throwing calls and
    `Outcome` for throwing calls that return nothing on success. */
module Wrappers {

  /** A Swift optional: `None` is `nil`. */
  datatype Option<+T> = None | Some(value: T) {

    /** The `??` operator: the wrapped value, or `default` when absent. */
    function GetOr(default: T): T {
      match this
      case Some(v) => v
      case None => default
    }
  }

  /** The result of a call that either returns a value or throws an error. */
  datatype Result<+R, +E> = Success(value: R) | Failure(error: E) {

    /** Rewraps the thrown error, keeping a returned value as it is. */
    function MapFailure<NewE>(rewrap: E -> NewE): Result<R, NewE> {
      match this
      case Success(v) => Success(v)
      case Failure(e) => Failure(rewrap(e))
    }
  }

  /** The result of a throwing call that returns nothing when it succeeds. */
  datatype Outcome<+E> = Pass | Fail(error: E)
}
