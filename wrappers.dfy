/** The optional and fallible result types shared by the other modules. */
module Wrappers {

  /** An optional value: a missing row, an omitted field or a SQL NULL. */
  datatype Option<+T> = None | Some(value: T) {

    /** The value when present, `default` otherwise (JavaScript's `x ?? default`). */
    function GetOr(default: T): T {
      match this
      case Some(v) => v
      case None => default
    }
  }

  /** The outcome of an operation that can throw: `Err` carries the error's message. */
  datatype Result<+T> = Ok(value: T) | Err(message: string)
}
