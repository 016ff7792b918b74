/** The JavaScript `null`/`undefined` of the extractor, as a value. */
module Wrappers {

  /** `None` stands for `null` (or an absent attribute); `Some(v)` for a present value. */
  datatype Option<+T> = None | Some(value: T) {

    /** Returns the wrapped value, or `default` when there is none. */
    function GetOr(default: T): T {
      match this
      case Some(v) => v
      case None => default
    }
  }
}
