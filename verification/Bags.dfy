// The multiset sum of f over the values of a map, and how it follows updates.
module Bags {

  ghost function Bag<K, V, T>(m: map<K, V>, f: V -> multiset<T>): multiset<T>
    decreases |m|
  {
    if m == map[] then multiset{}
    else
      var k :| k in m;
      assert |m - {k}| < |m| by { assert (m - {k}).Keys == m.Keys - {k}; }
      f(m[k]) + Bag(m - {k}, f)
  }

  lemma {:induction false} BagRemove<K, V, T>(m: map<K, V>, f: V -> multiset<T>, k: K)
    requires k in m
    ensures Bag(m, f) == f(m[k]) + Bag(m - {k}, f)
    decreases |m|
  {
    var j :| j in m && Bag(m, f) == f(m[j]) + Bag(m - {j}, f);
    if j != k {
      assert |m - {j}| < |m| by { assert (m - {j}).Keys == m.Keys - {j}; }
      assert |m - {k}| < |m| by { assert (m - {k}).Keys == m.Keys - {k}; }
      BagRemove(m - {j}, f, k);
      BagRemove(m - {k}, f, j);
      assert m - {j} - {k} == m - {k} - {j};
    }
  }

  // The three ways a map changes, element by element.

  lemma BagAdd<K, V, T>(m: map<K, V>, f: V -> multiset<T>, k: K, v: V)
    requires k !in m
    ensures forall t: T :: Bag(m[k := v], f)[t] == Bag(m, f)[t] + f(v)[t]
  {
    BagRemove(m[k := v], f, k);
    assert m[k := v] - {k} == m;
  }

  lemma BagDelete<K, V, T>(m: map<K, V>, f: V -> multiset<T>, k: K)
    ensures forall t: T :: Bag(m - {k}, f)[t] + (if k in m then f(m[k])[t] else 0) == Bag(m, f)[t]
  {
    if k in m {
      BagRemove(m, f, k);
    } else {
      assert m - {k} == m;
    }
  }

  lemma BagPut<K, V, T>(m: map<K, V>, f: V -> multiset<T>, k: K, v: V)
    ensures forall t: T ::
      Bag(m[k := v], f)[t] + (if k in m then f(m[k])[t] else 0) == Bag(m, f)[t] + f(v)[t]
  {
    BagDelete(m, f, k);
    BagAdd(m - {k}, f, k, v);
    assert (m - {k})[k := v] == m[k := v];
  }
}
