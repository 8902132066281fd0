/** Maps by their keys and values. The specification functions choose the map they mean instead of writing a
    comprehension: to the verifier two comprehensions over no keys at all are one map, but keep the two
    rules for their values, from which anything follows. */
module Maps {
  import opened Quorums

  lemma {:induction false} MapExists<K, V>(keys: set<K>, f: K -> V)
    ensures exists m: map<K, V> :: m.Keys == keys && forall k | k in keys :: m[k] == f(k)
    decreases |keys|
  {
    if keys == {} {
      var none: map<K, V> := map[];
      assert none.Keys == keys;
    } else {
      var x := Pick(keys);
      MapExists(keys - {x}, f);
      var m: map<K, V> :| m.Keys == keys - {x} && forall k | k in keys - {x} :: m[k] == f(k);
      var m' := OneMoreKey(keys, f, x, m);
      assert m'.Keys == keys;
    }
  }

  lemma OneMoreKey<K, V>(keys: set<K>, f: K -> V, x: K, m: map<K, V>) returns (m': map<K, V>)
    requires x in keys && m.Keys == keys - {x} && forall k | k in m :: m[k] == f(k)
    ensures m'.Keys == keys && forall k | k in keys :: m'[k] == f(k)
  {
    m' := m[x := f(x)];
  }
}
