/** Small value types shared by the server and the client model. */
module Prelude {

  /** A value that may be absent (`undefined` or `null` in the source). */
  datatype Option<T> = None | Some(value: T)

  /** JavaScript truthiness of a value that is a string or absent: `!!s`. */
  predicate Truthy(s: Option<string>)
  {
    s.Some? && s.value != ""
  }

  /** `m.get(k)` on a string-keyed store such as `localStorage` or `URLSearchParams`. */
  function Lookup<K, V>(m: map<K, V>, k: K): (r: Option<V>)
    ensures r.Some? <==> k in m
    ensures r.Some? ==> r.value == m[k]
  {
    if k in m then Some(m[k]) else None
  }
}
