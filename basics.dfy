/** Option and Result values shared by the rest of the model. */
module Basics {

  /** An argument that may be absent (Python's None). */
  datatype Option<+T> = None | Some(value: T) {
    function GetOr(default: T): T {
      match this
      case Some(v) => v
      case None => default
    }
  }

  /** The outcome of a step that can raise. */
  datatype Result<+T, +E> = Success(value: T) | Failure(error: E)
}
