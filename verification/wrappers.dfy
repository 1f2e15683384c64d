/** Small failure-carrying datatypes shared by the router model. */
module Wrappers {

  /** A possibly-absent value; `None` stands for Go's nil. */
  datatype Option<+T> = None | Some(value: T) {
    function GetOr(default: T): T {
      match this
      case Some(v) => v
      case None => default
    }
  }

  /** Either a value or an error, standing for Go's `(T, error)` pair. */
  datatype Result<+T, +E> = Success(value: T) | Failure(error: E)
}
