/** Option and Result values used wherever the source returns `undefined`
    or throws and catches an error. */
module Wrappers {

  datatype Option<+T> = None | Some(value: T) {
    function GetOr(default: T): T {
      match this
      case Some(v) => v
      case None => default
    }
  }

  /** `Failure` carries the text of the message a caught exception would hold. */
  datatype Result<+T> = Success(value: T) | Failure(error: string)

  newtype byte = x: int | 0 <= x < 256
}
