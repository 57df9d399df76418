/** Option and Result, used throughout the model for JavaScript's null/undefined
    and for thrown errors. */
module Base {

  /** A value that may be absent (`null`/`undefined` in the source). */
  datatype Option<+T> = None | Some(value: T) {
    function GetOr(default: T): T {
      match this
      case Some(v) => v
      case None => default
    }
  }

  /** The outcome of an operation that may throw: `Err` carries the error's message. */
  datatype Result<+T> = Ok(value: T) | Err(error: string)
}
