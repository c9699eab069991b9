// Optional values (the model of a C# `null` reference) and outcomes of steps
// that may raise an exception.

module Wrappers {

  datatype Option<T> = None | Some(value: T) {
    /** The value, or `default` when absent: the C# `??` operator. */
    function GetOr(default: T): T {
      match this
      case Some(v) => v
      case None => default
    }
  }

  /** A step that either produced a value or raised an exception carrying a message. */
  datatype Result<T> = Ok(value: T) | Raised(message: string)
}
