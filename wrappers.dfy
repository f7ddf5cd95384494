/**
 * Optional values: `null` / `undefined` in the modelled TypeScript become None; and the
 * JavaScript truthiness of such values.
 */
module Wrappers {

  datatype Option<+T> = None | Some(value: T) {

    /** The value, or `default` when there is none (TypeScript's `x ?? default`). */
    function GetOr(default: T): T {
      match this
      case Some(v) => v
      case None => default
    }
  }

  /** JavaScript truthiness of a string that may be null: present and non-empty. */
  predicate Truthy(s: Option<string>) {
    s.Some? && s.value != []
  }

  /** JavaScript truthiness of a number that may be null: present and non-zero. */
  predicate TruthyNum(n: Option<int>) {
    n.Some? && n.value != 0
  }

  /** `n || null` for a number: zero becomes null. */
  function OrNull(n: Option<int>): (r: Option<int>)
    ensures r.Some? <==> TruthyNum(n)
    ensures r.Some? ==> r == n
  {
    if TruthyNum(n) then n else None
  }
}
