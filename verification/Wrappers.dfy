/** Optional and failing results, shared by every other module. */
module Wrappers {

  datatype Option<+T> = None | Some(value: T)

  datatype Result<+T, +E> = Ok(value: T) | Err(error: E)

  /** Lookup in a finite map, as `HashMap::get`. */
  function Lookup<K, V>(m: map<K, V>, key: K): Option<V> {
    if key in m then Some(m[key]) else None
  }

  /** Storing an entry, or removing it if there is none. */
  function Put<K, V>(m: map<K, V>, key: K, entry: Option<V>): map<K, V> {
    if entry.Some? then m[key := entry.value] else m - {key}
  }

  lemma ConcatIsAssociative<T>(a: seq<T>, b: seq<T>, c: seq<T>)
    ensures (a + b) + c == a + (b + c)
  {
  }
}
