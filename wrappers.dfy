/** Option and Result types shared by the model's modules. */
module Wrappers {

  /** A value that may be missing: a null reference, an absent singleton, an unset slot. */
  datatype Option<T> = None | Some(value: T) {

    /** The value, or `default` when missing. */
    function GetOr(default: T): T {
      if Some? then value else default
    }
  }

  /** The outcome of a call that may throw: `Failure` names the exception. */
  datatype Result<T> = Success(value: T) | Failure(error: string)
}
