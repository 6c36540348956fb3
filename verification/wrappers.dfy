/** Failure-carrying datatypes shared by every module of the model.
    `Option` stands for TypeScript's `T | null | undefined`; `Result` for a
    value that is either computed or replaced by a thrown error. */
module Wrappers {

  datatype Option<+T> = None | Some(value: T) {

    /** The wrapped value, or `default` when absent (the `??` operator). */
    function GetOr(default: T): T {
      match this
      case Some(v) => v
      case None => default
    }
  }

  datatype Result<+R, +E> = Ok(value: R) | Err(error: E)
}
