/**
 * A JavaScript `Map` with string keys: lookups by key, iteration in the order
 * keys were first inserted, and `set` on a present key replacing its value in
 * place without moving it.
 */
module JsMaps {
  datatype JsMap<V> = JsMap(keys: seq<string>, values: map<string, V>)

  function Empty<V>(): JsMap<V> {
    JsMap([], map[])
  }

  predicate Distinct(s: seq<string>) {
    forall i, j :: 0 <= i < j < |s| ==> s[i] != s[j]
  }

  /** The keys are listed once each and are exactly the stored keys. */
  ghost predicate Valid<V>(m: JsMap<V>) {
    Distinct(m.keys) && forall k :: k in m.values <==> k in m.keys
  }

  /** `m.set(k, v)`. */
  function Set<V>(m: JsMap<V>, k: string, v: V): (r: JsMap<V>)
    ensures r.values == m.values[k := v]
    ensures k in m.values ==> r.keys == m.keys
    ensures k !in m.values ==> r.keys == m.keys + [k]
  {
    JsMap(if k in m.values then m.keys else m.keys + [k], m.values[k := v])
  }

  lemma SetValid<V>(m: JsMap<V>, k: string, v: V)
    requires Valid(m)
    ensures Valid(Set(m, k, v))
  {
  }
}
