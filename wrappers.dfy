/** Optional values: the model's stand-in for C#'s `null` and TypeScript's
    `undefined` / `null`. */
module Wrappers {

  datatype Option<+T> = None | Some(value: T) {

    /** The value, or `default` when absent (the `??` operator of C# and TypeScript). */
    function GetOr(default: T): T {
      match this
      case Some(v) => v
      case None => default
    }
  }
}
