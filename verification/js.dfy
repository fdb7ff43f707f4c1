/** The small slice of JavaScript's value model that the constants module relies on:
    optional values, results of a computation that can throw, and the values a
    dictionary built by the module can hold. */
module Js {

  /** A lookup that may find nothing (`undefined` in JavaScript). */
  datatype Option<+T> = None | Some(value: T)

  /** A computation that either returns a value or throws. */
  datatype Result<+R, +E> = Success(value: R) | Failure(error: E)

  /** A value stored in one of the module's dictionaries: a non-negative number,
      a string, or the number NaN that `parseInt` produces for a non-numeral. */
  datatype Value = Num(n: nat) | Str(s: string) | NaN

  /** Property read `obj[key]` on a dictionary; `None` when the key is absent. */
  function Get<K, V>(m: map<K, V>, k: K): (r: Option<V>)
    ensures r.Some? <==> k in m
    ensures r.Some? ==> r.value == m[k]
  {
    if k in m then Some(m[k]) else None
  }
}
