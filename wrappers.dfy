/** Option, the model's stand-in for JavaScript's `undefined`/`null` next to a value. */
module Wrappers {

  datatype Option<+T> = None | Some(value: T) {

    /** The value held, or the given default when there is none. */
    function GetOr(default: T): T {
      match this
      case Some(v) => v
      case None => default
    }
  }
}
