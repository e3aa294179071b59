/** Option and Result, the two shapes every backend answer and every
    nullable field of the application takes in this model. */
module Wrappers {

  datatype Option<+T> = None | Some(value: T) {
    function GetOr(default: T): T {
      match this
      case Some(v) => v
      case None => default
    }
  }

  /** An error as the application sees it: only its message is used. */
  datatype Error = Error(message: string)

  /** The answer of one backend call. */
  datatype Result<+T> = Ok(value: T) | Err(error: Error)
}
