/** Optional values and error-carrying results, as the TypeScript code uses
    `undefined`/`null` and `{ data, error }` pairs. */
module Wrappers {

  datatype Option<+T> = None | Some(value: T) {
    /** `x ?? d` */
    function GetOr(default: T): T {
      match this
      case Some(v) => v
      case None => default
    }
  }

  /** A backend answer: either a value or the error message it reported. */
  datatype Result<+T> = Ok(value: T) | Err(message: string)
}
