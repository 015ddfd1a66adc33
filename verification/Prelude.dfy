/** Small value types shared by every component of the model. */
module Prelude {

  datatype Option<+T> = None | Some(value: T)

  /** The value `m` holds at `k`, if any: Go's two-result map read. */
  function Lookup<K, V>(m: map<K, V>, k: K): (r: Option<V>)
    ensures r.Some? <==> k in m
    ensures r.Some? ==> r.value == m[k]
  {
    if k in m then Some(m[k]) else None
  }
}
