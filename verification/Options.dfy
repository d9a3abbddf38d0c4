/** An absent or present value, for the source's `undefined` and `null`. */
module Options {
  datatype Option<+T> = None | Some(value: T)

  /** A map entry read the way an object property is: absent means undefined. */
  function Lookup<K, V>(m: map<K, V>, key: K): (r: Option<V>)
    ensures r.Some? <==> key in m
    ensures r.Some? ==> r.value == m[key]
  {
    if key in m then Some(m[key]) else None
  }
}
