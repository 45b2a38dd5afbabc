/** Option and Result types. A Java `null` becomes `None`; a thrown exception
    becomes `Err` carrying the exception's message. */
module Wrappers {

  datatype Option<+T> = None | Some(value: T)
  {
    function GetOr(default: T): T
    {
      match this
      case Some(v) => v
      case None => default
    }
  }

  /** The outcome of a Java call that either returns a value or throws. */
  datatype Result<+T> = Ok(value: T) | Err(msg: string)

  /** The outcome of a Java `void` call that either returns or throws. */
  datatype Outcome = Pass | Fail(msg: string)
}
