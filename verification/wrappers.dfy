/** Failure-carrying datatypes shared by every module of the model. */
module Wrappers {

  /** A value that may be absent (Python's `None`). */
  datatype Option<+T> = None | Some(value: T) {

    /** The value, or `default` when absent. */
    function GetOr(default: T): T {
      match this
      case Some(v) => v
      case None => default
    }
  }

  /**
   * The outcome of a call into code outside the model (the exchange, an AI
   * service, the file system): it either returns a value or raises.
   */
  datatype Attempt<+T> = Ok(value: T) | Raised
}
