/** Optional values: the model's rendering of a TypeScript field marked `?`
    (absent or `undefined`) and of `T | null`. */
module Wrappers {

  datatype Option<+T> = None | Some(value: T) {

    /** The value, or `default` when absent. It agrees with TypeScript's
        `x || default` whenever the field's only falsy values are
        `undefined` and `default` itself, as for `goal.streak || 0`, where
        a streak of 0 gives 0 either way. */
    function GetOr(default: T): T {
      match this
      case Some(v) => v
      case None => default
    }
  }
}
