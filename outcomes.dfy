/** Results of the Java operations: `null` returns and the exceptions they throw; the time unit the maps share. */
module Outcomes {

  /** `TimeUnit.SECONDS.toNanos(1)`: every TTL given in seconds is kept in nanoseconds. */
  const NanosPerSecond: int := 1_000_000_000

  /** A Java reference that may be `null`. */
  datatype Option<T> = None | Some(value: T)

  /** The exceptions the cache and its cleaners throw. */
  datatype Error =
    | IllegalArgument  // a rejected configuration value (Preconditions.checkArgument)
    | IllegalState     // a chunk refused by the full hand-off queue
    | NullPointer      // a null map handed to a cleaner builder

  /** The value a Java call returns, or the exception it throws. */
  datatype Result<T> = Ok(value: T) | Err(error: Error)

  /** A Java call that returns nothing, or the exception it throws. */
  datatype Outcome = Success | Failure(error: Error)

  /** `Map.get` / the previous value returned by `Map.put` and `Map.remove`. */
  function Find<K, V>(m: map<K, V>, k: K): (r: Option<V>)
    ensures r.Some? <==> k in m
    ensures r.Some? ==> r.value == m[k]
  {
    if k in m then Some(m[k]) else None
  }
}
