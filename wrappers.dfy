/** Optional values and error-carrying results shared by every module of the model. */
module Wrappers {

  /** A value that may be `undefined`. */
  datatype Option<+T> = None | Some(value: T) {

    /** The value, or `default` when undefined (a destructuring default). */
    function GetOr(default: T): T {
      match this
      case Some(v) => v
      case None => default
    }
  }

  /** The outcome of a computation that may throw. */
  datatype Result<+T, +E> = Ok(value: T) | Err(error: E)

  /** A JavaScript `TypeError` raised by reading a property of `undefined`. */
  datatype TypeError = ReadOfUndefined(property: string)
}
