/** What all modules share. */
module Prelude {
  datatype Option<+T> = None | Some(value: T) {
    /** The value held, or `fallback` when there is none (the `??` operator). */
    function GetOr(fallback: T): T {
      match this
      case Some(v) => v
      case None => fallback
    }
  }

  ghost predicate Ascending(s: seq<nat>) {
    forall i, j | 0 <= i < j < |s| :: s[i] < s[j]
  }

  function Min(a: real, b: real): real {
    if a < b then a else b
  }
}
