/** Failure-carrying wrappers shared by both inventory scripts. */
module Wrappers {

  /** Python's `None` or a present value. */
  datatype Option<+T> = None | Some(value: T) {

    /** The value, or `default` when it is absent (`x if x is not None else default`). */
    function GetOr(default: T): T {
      match this
      case Some(v) => v
      case None => default
    }
  }

  /** What one remote call produced: its payload, or the text of the exception it
      raised (`str(e)`). Every boto3 call of the scripts is an input of this shape. */
  datatype Outcome<+T> = Ok(value: T) | Err(msg: string)
}
