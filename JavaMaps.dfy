/** java.util.HashMap / LinkedHashMap as the registry uses them: mutable
    objects that several owners can share, keyed by value, whose values may
    be null. Iteration order is not modelled. */
module JavaMaps {
  import opened Wrappers

  /** `map.get(key)`: null when the key is absent or bound to null. */
  function Get<K, V>(m: map<K, Option<V>>, key: K): (r: Option<V>)
    ensures r.Some? ==> key in m && m[key] == r
    ensures key !in m ==> r.None?
  {
    if key in m then m[key] else None
  }

  class HashMap<K(==), V> {
    /** The bindings; a key bound to `None` is present with a null value. */
    var entries: map<K, Option<V>>

    constructor ()
      ensures entries == map[]
    {
      entries := map[];
    }

    /** `containsKey(key)`: a key bound to null counts as present. */
    function ContainsKey(key: K): bool
      reads this
    {
      key in entries
    }

    method Put(key: K, value: Option<V>)
      modifies this
      ensures entries == old(entries)[key := value]
    {
      entries := entries[key := value];
    }

    /** `putIfAbsent(key, value)`: binds when the key is absent or bound to null. */
    method PutIfAbsent(key: K, value: Option<V>)
      modifies this
      ensures Get(old(entries), key).None? ==> entries == old(entries)[key := value]
      ensures Get(old(entries), key).Some? ==> entries == old(entries)
    {
      if Get(entries, key).None? {
        entries := entries[key := value];
      }
    }

    /** `putAll(other)`: every binding of `other` wins over an existing one. */
    method PutAll(other: map<K, Option<V>>)
      modifies this
      ensures entries.Keys == old(entries).Keys + other.Keys
      ensures forall k :: k in other ==> entries[k] == other[k]
      ensures forall k :: k in old(entries) && k !in other ==> entries[k] == old(entries)[k]
    {
      entries := entries + other;
    }

    method Clear()
      modifies this
      ensures entries == map[]
    {
      entries := map[];
    }
  }
}
