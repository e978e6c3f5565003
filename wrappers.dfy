/** An optional value: the model's stand-in for a TypeScript field that may be `undefined`
    or a value that may be `null`. */
module Wrappers {

  datatype Option<+T> = None | Some(value: T) {

    /** The value, or `default` when absent (JavaScript's `x ?? default`; the feed's
        `x || 0` on a number agrees with it, since a present 0 gives 0 either way). */
    function GetOr(default: T): T {
      match this
      case Some(v) => v
      case None => default
    }
  }
}
