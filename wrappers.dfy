/** Option and Result, the failure-carrying values used throughout the model.
    JavaScript's `null`/`undefined` become None; a thrown Error becomes Err(message). */
module Wrappers {

  datatype Option<+T> = None | Some(value: T) {
    function GetOr(default: T): T {
      match this
      case Some(v) => v
      case None => default
    }
  }

  datatype Result<+T> = Ok(value: T) | Err(message: string)
}
