/** Values every other module shares: optional and fallible results, and the
    insertion-ordered map that a JavaScript `Map` and a Kotlin `linkedMapOf` both are. */
module Collections {

  datatype Option<+T> = None | Some(value: T)

  datatype Result<+T, +E> = Ok(value: T) | Err(error: E)

  predicate Distinct<T(==)>(s: seq<T>) {
    forall i, j :: 0 <= i < j < |s| ==> s[i] != s[j]
  }

  /** Keys in first-insertion order; overwriting a key keeps its position. */
  datatype OrderedMap<K(==), V> = OrderedMap(keys: seq<K>, data: map<K, V>) {

    ghost predicate Valid() {
      && Distinct(keys)
      && (forall k :: k in keys ==> k in data)
      && (forall k :: k in data ==> k in keys)
    }

    function Put(k: K, v: V): OrderedMap<K, V> {
      OrderedMap(if k in data then keys else keys + [k], data[k := v])
    }

    function Get(k: K): Option<V> {
      if k in data then Some(data[k]) else None
    }

    function Values(): (vs: seq<V>)
      requires Valid()
    {
      seq(|keys|, i requires 0 <= i < |keys| => data[keys[i]])
    }
  }

  function EmptyMap<K(==), V>(): OrderedMap<K, V> {
    OrderedMap([], map[])
  }

  lemma PutKeepsValid<K, V>(m: OrderedMap<K, V>, k: K, v: V)
    requires m.Valid()
    ensures m.Put(k, v).Valid()
  {
  }

  lemma PutFreshAppends<K, V>(m: OrderedMap<K, V>, k: K, v: V)
    requires m.Valid() && k !in m.data
    ensures m.Put(k, v).Valid() && m.Put(k, v).Values() == m.Values() + [v]
  {
    PutKeepsValid(m, k, v);
    var p := m.Put(k, v);
    forall i | 0 <= i < |m.keys| ensures p.Values()[i] == m.Values()[i] {
      assert m.keys[i] in m.keys;
    }
  }

  lemma PutExistingReplaces<K, V>(m: OrderedMap<K, V>, i: nat, v: V)
    requires m.Valid() && i < |m.keys|
    ensures m.Put(m.keys[i], v).Valid() && m.Put(m.keys[i], v).Values() == m.Values()[i := v]
  {
    assert m.keys[i] in m.keys;
    PutKeepsValid(m, m.keys[i], v);
  }

  function Sum(s: seq<int>): int {
    if s == [] then 0 else Sum(s[..|s| - 1]) + s[|s| - 1]
  }

  lemma SumAppend(s: seq<int>, x: int)
    ensures Sum(s + [x]) == Sum(s) + x
  {
    assert (s + [x])[..|s|] == s;
  }

  lemma {:induction false} SumReplace(s: seq<int>, i: nat, x: int)
    requires i < |s|
    ensures Sum(s[i := x]) == Sum(s) - s[i] + x
    decreases |s|
  {
    var n := |s| - 1;
    if i < n {
      assert s[i := x][..n] == s[..n][i := x];
      SumReplace(s[..n], i, x);
    } else {
      assert s[i := x][..n] == s[..n];
    }
  }
}
