/** Failure-carrying values shared by every module of the model. */
module Wrappers {

  /** Python's `None` or a present value. */
  datatype Option<+T> = None | Some(value: T)
  {
    function GetOr(default: T): T
    {
      match this
      case Some(v) => v
      case None => default
    }
  }

  /** What a Python call that may raise hands back: a value, or the text of the exception. */
  datatype Raises<+T> = Returned(value: T) | Raised(message: string)

  /** A call whose only result is whether it raised (used for best-effort writes). */
  datatype Outcome = Pass | Fail(message: string)
}
