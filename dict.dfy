/** Python dictionary lookups with a default, `d.get(key, default)`. */
module Dict {

  /** `m.get(k, d)`: the entry for `k` when there is one, otherwise `d`; never fails. */
  function Get<K, V>(m: map<K, V>, k: K, d: V): V
  {
    if k in m then m[k] else d
  }
}
