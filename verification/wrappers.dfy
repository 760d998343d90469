/** Optional values and failing results shared by every module of the model.
    `Option` stands for a TypeScript optional property (`x?: T`, where an
    absent property reads as `undefined`); `Result` stands for an operation
    that either returns a value or throws an `Error` carrying a message. */
module Wrappers {

  datatype Option<+T> = None | Some(value: T) {

    /** The value, or `default` when absent */
    function GetOr(default: T): T {
      match this
      case Some(v) => v
      case None => default
    }
  }

  datatype Result<+T> = Ok(value: T) | Err(message: string)
}
