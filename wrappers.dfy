/** Option and Result, the two failure-carrying shapes the model uses in place of
    Python's `None` and of exceptions that escape a call. */
module Wrappers {

  datatype Option<+T> = None | Some(value: T) {
    function GetOr(default: T): T {
      match this
      case Some(v) => v
      case None => default
    }
  }

  /** `Crashed` stands for an exception the source does not catch: the call ends there. */
  datatype Result<+T> = Ok(value: T) | Crashed(reason: string)
}
