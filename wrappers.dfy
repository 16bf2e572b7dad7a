/** Option type used for the source's nullable pointers and optional outcomes. */
module Wrappers {

  /** `None` stands for a NULL pointer or an absent value. */
  datatype Option<+T> = None | Some(value: T) {

    /** The value, or `default` when absent. */
    function GetOr(default: T): T {
      match this
      case Some(v) => v
      case None => default
    }
  }
}
