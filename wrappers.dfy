/** Option and Result, used for Java's nullable slots and for the exceptions the recorder throws. */
module Wrappers {

  /** A Java reference that may be null: `None` plays the part of `null`. */
  datatype Option<+T> = None | Some(value: T)

  /** The outcome of an operation that either returns a value or throws. */
  datatype Result<+R, +E> = Success(value: R) | Failure(error: E)

  /** The entry of `m` at `k`, or `None` when `k` has no entry. */
  function Lookup<K, V>(m: map<K, V>, k: K): (r: Option<V>)
    ensures r.Some? <==> k in m
    ensures r.Some? ==> m[k] == r.value
  {
    if k in m then Some(m[k]) else None
  }
}
