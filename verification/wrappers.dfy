/** Optional values: the model of a TypeScript optional key or a `T | null` field. */
module Wrappers {

  datatype Option<+T> = None | Some(value: T) {

    /** The wrapped value, or `default` when there is none. */
    function GetOr(default: T): T {
      match this
      case Some(v) => v
      case None => default
    }
  }

  /** Object-spread semantics for one key: a key present in `over` wins, otherwise `base` is kept. */
  function Overlay<T>(base: Option<T>, over: Option<T>): Option<T> {
    if over.Some? then over else base
  }
}
