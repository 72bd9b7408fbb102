/** Optional values: the model's stand-in for `undefined` / `null` results. */
module Wrappers {

  datatype Option<+T> = None | Some(value: T) {

    /** Returns the value held in Some, or `default` for None. */
    function GetOr(default: T): T {
      match this
      case Some(v) => v
      case None => default
    }
  }

  /** `r` is None exactly when `fails` holds, and otherwise holds `v`: how an
      operation that can throw relates to the one that cannot. */
  predicate FailsExactlyWhen<T(==)>(r: Option<T>, fails: bool, v: T) {
    (r.None? <==> fails) && (r.Some? ==> r.value == v)
  }
}
