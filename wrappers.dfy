/** Optional values: the model's rendering of JavaScript's null / undefined. */
module Wrappers {

  datatype Option<+T> = None | Some(value: T) {

    /** The value, or `default` when absent: the `x || default` idiom on a nullable field. */
    function GetOr(default: T): T {
      match this
      case Some(v) => v
      case None => default
    }
  }

  /** JavaScript coerces a null numeric column to 0 in `+`, `*`, `<=` and in `x || 0`. */
  function Num(x: Option<int>): (n: int)
    ensures x.None? ==> n == 0
    ensures x.Some? ==> n == x.value
  {
    x.GetOr(0)
  }

  /** Truthiness of a nullable string: null and '' are falsy. */
  predicate Truthy(x: Option<string>) {
    x.Some? && x.value != ""
  }
}
