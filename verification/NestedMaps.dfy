/** Go's maps of maps, by namespace and then name, seen as one map by key. */
module NestedMaps {
  import opened Api

  type Nested<V> = map<string, map<string, V>>

  predicate Has<V>(m: Nested<V>, k: Key) {
    k.ns in m && k.name in m[k.ns]
  }

  function At<V>(m: Nested<V>, k: Key): V
    requires Has(m, k)
  {
    m[k.ns][k.name]
  }

  /** Storing creates the inner map when the namespace is new. */
  function Put<V>(m: Nested<V>, k: Key, v: V): Nested<V> {
    if k.ns in m then m[k.ns := m[k.ns][k.name := v]] else m[k.ns := map[k.name := v]]
  }

  /** Go's delete: nothing happens when there is nothing, and an emptied inner map stays. */
  function Delete<V>(m: Nested<V>, k: Key): Nested<V> {
    if k.ns in m then m[k.ns := m[k.ns] - {k.name}] else m
  }

  lemma PutGet<V>(m: Nested<V>, k: Key, v: V, j: Key)
    ensures Has(Put(m, k, v), j) <==> Has(m, j) || j == k
    ensures Has(Put(m, k, v), j) ==> At(Put(m, k, v), j) == if j == k then v else At(m, j)
  {
  }

  lemma DeleteGet<V>(m: Nested<V>, k: Key, j: Key)
    ensures Has(Delete(m, k), j) <==> Has(m, j) && j != k
    ensures Has(Delete(m, k), j) ==> At(Delete(m, k), j) == At(m, j)
  {
  }
}
