/** Option and Result, standing for Java's nullable references and thrown exceptions. */
module Wrappers {

  /** A value that may be absent (a Java `null`). */
  datatype Option<+T> = None | Some(value: T)

  /** The outcome of an operation that either returns a value or throws. */
  datatype Result<+R, +E> = Success(value: R) | Failure(error: E)

  /** `Map.get`: the value stored under `k`, or `None` (Java's `null`) when `k` is absent. */
  function Get<K, V>(m: map<K, V>, k: K): (r: Option<V>)
    ensures r.Some? <==> k in m
    ensures r.Some? ==> r.value == m[k]
  {
    if k in m then Some(m[k]) else None
  }
}
