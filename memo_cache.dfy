/**
 * The memoisation shared by the terminology lookups: consult a map, and on a
 * miss call the remote fetch and store whatever it returned, negative answers
 * included. The fetch is a function of the key: the remote service is not
 * part of this model.
 */
module MemoCache {

  datatype Outcome<K, V> = Outcome(value: V, table: map<K, V>)

  function Lookup<K, V>(table: map<K, V>, fetch: K -> V, key: K): (o: Outcome<K, V>)
    ensures key in o.table && o.table[key] == o.value
    ensures key in table ==> o.value == table[key]
    ensures key !in table ==> o.value == fetch(key)
    ensures o.table.Keys == table.Keys + {key}
    ensures forall k :: k in table ==> o.table[k] == table[k]
  {
    if key in table then Outcome(table[key], table) else Outcome(fetch(key), table[key := fetch(key)])
  }

  /** A second call with the same key returns the same value and leaves the table alone, whatever the fetch would now answer. */
  lemma LookupRepeats<K, V>(table: map<K, V>, fetch: K -> V, later: K -> V, key: K)
    ensures var o := Lookup(table, fetch, key); Lookup(o.table, later, key) == o
  {
  }

  /** A hit never consults the fetch. */
  lemma HitIgnoresFetch<K, V>(table: map<K, V>, f: K -> V, g: K -> V, key: K)
    requires key in table
    ensures Lookup(table, f, key) == Lookup(table, g, key) == Outcome(table[key], table)
  {
  }
}
