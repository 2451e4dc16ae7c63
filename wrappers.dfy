/** Optional values (JavaScript `undefined`/`null`) and thrown errors. */
module Wrappers {

  /** `None` stands for an absent (`undefined`) value. */
  datatype Option<+T> = None | Some(value: T) {
    /** `value ?? fallback` */
    function GetOr(fallback: T): T {
      match this
      case Some(v) => v
      case None => fallback
    }
  }

  /** The outcome of a backend call that either returns a value or throws an `Error`. */
  datatype Result<+T> = Ok(value: T) | Thrown(message: string)
}
