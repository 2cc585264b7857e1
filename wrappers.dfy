/** Optional values: a JavaScript `undefined` / `null` is `None`. */
module Wrappers {

  datatype Option<+T> = None | Some(value: T)

  /** The value a map holds for a key, or `None` when the key is absent. */
  function Lookup<K, V>(m: map<K, V>, k: K): (r: Option<V>)
    ensures r.Some? <==> k in m
    ensures r.Some? ==> r.value == m[k]
  {
    if k in m then Some(m[k]) else None
  }
}
