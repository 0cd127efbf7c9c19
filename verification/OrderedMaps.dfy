/** A JavaScript Map: a finite map that remembers the order in which its keys were first set. */
module OrderedMaps {
  import opened Options

  datatype RawMap<K(==,!new), V> = RawMap(order: seq<K>, at: map<K, V>) {
    ghost predicate Valid() {
      forall k :: k in at ==> k in order
    }
  }

  type OrderedMap<K(==,!new), V> = m: RawMap<K, V> | m.Valid() witness RawMap([], map[])

  function Empty<K(==,!new), V>(): OrderedMap<K, V> { RawMap([], map[]) }

  function Lookup<K(==,!new), V>(m: OrderedMap<K, V>, k: K): Option<V> {
    if k in m.at then Some(m.at[k]) else None
  }

  /** Setting an existing key keeps its place. */
  function Set<K(==,!new), V>(m: OrderedMap<K, V>, k: K, v: V): (r: OrderedMap<K, V>)
    ensures r.at == m.at[k := v]
  {
    if k in m.at then RawMap(m.order, m.at[k := v]) else RawMap(m.order + [k], m.at[k := v])
  }

  /** The first key, in order, whose value satisfies the test. */
  function FirstKey<K(==,!new), V>(order: seq<K>, at: map<K, V>, test: V -> bool): (r: Option<K>)
    ensures r.Some? ==> r.value in order && r.value in at && test(at[r.value])
    ensures r.None? ==> forall k :: k in order && k in at ==> !test(at[k])
  {
    if |order| == 0 then None
    else if order[0] in at && test(at[order[0]]) then Some(order[0])
    else FirstKey(order[1..], at, test)
  }

  function Find<K(==,!new), V>(m: OrderedMap<K, V>, test: V -> bool): (r: Option<K>)
    ensures r.Some? ==> r.value in m.at && test(m.at[r.value])
    ensures r.None? ==> forall k :: k in m.at ==> !test(m.at[k])
  {
    FirstKey(m.order, m.at, test)
  }
}
