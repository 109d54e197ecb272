/** Values that may be absent: an `undefined`/`null` field, a NaN parse, a list that failed to load. */
module Wrappers {

  datatype Option<+T> = None | Some(value: T) {

    /** The value, or `default` when absent (the `??` operator). */
    function GetOr(default: T): T {
      match this
      case Some(v) => v
      case None => default
    }
  }

  /** The outcome of an awaited network request that may reject. */
  datatype Fetch<+T> = Failed | Loaded(body: T)
}
