/** Optional values and results, used for JavaScript's `undefined` and for thrown errors. */
module Wrappers {

  /**
   * `None` stands for an absent (`undefined`) value; where the source also
   * treats `null` as absent, the member using the option says so.
   */
  datatype Option<+T> = None | Some(value: T) {
    function GetOr(default: T): T {
      match this
      case Some(v) => v
      case None => default
    }
  }

  /** The outcome of a step that may throw: `Err` carries what was thrown. */
  datatype Result<+R, +E> = Ok(value: R) | Err(error: E)
}
