/** Optional values, standing for PHP's nullable values. */
module Wrappers {

  datatype Option<+T> = None | Some(value: T) {

    /** The value, or `default` when there is none. */
    function GetOr(default: T): T {
      if Some? then value else default
    }
  }

  /** A value, or the error a PHP call would throw instead of returning. */
  datatype Result<+T, +E> = Ok(value: T) | Err(error: E)

  /** PHP's null-coalescing operator `a ?? b`. */
  function Coalesce<T>(a: Option<T>, b: Option<T>): Option<T> {
    if a.Some? then a else b
  }

  /** `$m[$k] ?? null` on an array whose absent keys and null values are both None. */
  function Lookup<K, V>(m: map<K, V>, k: K): Option<V> {
    if k in m then Some(m[k]) else None
  }
}
