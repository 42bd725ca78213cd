/** Small value wrappers shared by the other modules. */
module Wrappers {

  /** Python's `None` or a value. */
  datatype Option<+T> = None | Some(value: T) {
    function GetOr(default: T): T {
      match this
      case Some(v) => v
      case None => default
    }
  }

  /** Whether a call into a collaborator returned normally or raised. */
  datatype Outcome = Pass | Fail(error: string)
}
