/** Optional values and the exceptions the implant model can raise. */
module Wrappers {

  /** `undefined`/`null` versus a present value. */
  datatype Option<+T> = None | Some(value: T) {
    /** `x ?? default` */
    function GetOr(default: T): T {
      match this
      case Some(v) => v
      case None => default
    }
  }

  /** The two kinds of exception the source can throw. */
  datatype Error =
    | ConstructionError(message: string)  // `throw new Error(...)` in a constructor
    | TypeError(message: string)          // a property read on `undefined`

  /** The outcome of an operation that may throw. */
  datatype Result<+T> = Ok(value: T) | Err(error: Error)
}
