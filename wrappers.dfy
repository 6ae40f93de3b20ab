/** Optional values: a Java reference that may be null, a JSON key that may be
    absent, a JavaScript value that may be undefined. */
module Wrappers {

  datatype Option<+T> = None | Some(value: T) {

    /** The value, or `default` when there is none. */
    function GetOr(default: T): T {
      match this
      case Some(v) => v
      case None => default
    }
  }

  /** Lookup in a JSON object modelled as a map: an absent key reads as null. */
  function Get<K, V>(m: map<K, V>, k: K): (r: Option<V>)
    ensures r.Some? <==> k in m
    ensures r.Some? ==> r.value == m[k]
  {
    if k in m then Some(m[k]) else None
  }
}
