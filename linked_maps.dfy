/**
 * A `java.util.LinkedHashMap`: putting a key that is already present replaces its value and
 * keeps the key's place, a new key goes to the end, and iteration follows insertion order.
 * The map is modelled as its keys in iteration order beside the key-value mapping.
 */
module LinkedMaps {
  import opened Options

  datatype LinkedMap<K, V> = LinkedMap(keys: seq<K>, values: map<K, V>)

  /** No key occurs twice: what a map, unlike a list of pairs, guarantees. */
  ghost predicate Distinct<K>(ks: seq<K>) {
    forall i, j :: 0 <= i < j < |ks| ==> ks[i] != ks[j]
  }

  /** The iteration order lists each key of the mapping once and nothing else. */
  ghost predicate Valid<K(!new), V>(m: LinkedMap<K, V>) {
    && Distinct(m.keys)
    && (forall k :: k in m.values <==> k in m.keys)
  }

  /** `new LinkedHashMap<>()`. */
  function Empty<K(!new), V>(): (m: LinkedMap<K, V>)
    ensures Valid(m) && |m.keys| == 0
  {
    LinkedMap([], map[])
  }

  /** `map.get(k)`: the value stored under `k`, or nothing (Java's null). */
  function Get<K, V>(m: LinkedMap<K, V>, k: K): Option<V> {
    if k in m.values then Some(m.values[k]) else None
  }

  /**
   * `map.put(k, v)`: the value of `k` becomes `v`; a new key goes to the end of the iteration
   * order, a present one keeps its place.
   */
  function Put<K, V>(m: LinkedMap<K, V>, k: K, v: V): LinkedMap<K, V> {
    LinkedMap(if k in m.values then m.keys else m.keys + [k], m.values[k := v])
  }

  /** After a put, `get` finds the value put under its key and the old value under any other. */
  lemma PutGet<K, V>(m: LinkedMap<K, V>, k: K, v: V, j: K)
    ensures Get(Put(m, k, v), j) == if j == k then Some(v) else Get(m, j)
  {
  }

  /** A put keeps the map well formed. */
  lemma PutValid<K(!new), V>(m: LinkedMap<K, V>, k: K, v: V)
    requires Valid(m)
    ensures Valid(Put(m, k, v))
  {
  }

  /** In a well-formed map, `get` finds a value exactly for the keys in the iteration order. */
  lemma GetKeys<K(!new), V>(m: LinkedMap<K, V>, k: K)
    requires Valid(m)
    ensures Get(m, k).Some? <==> k in m.keys
  {
  }
}
