/** Python dictionaries as insertion-ordered association lists.
    `Find` is `d.get(k)`, `Update` is `d[k] = v`: an existing key keeps its
    position and gets the new value, a new key is appended at the end. */
module Dicts {
  import opened Wrappers

  /** The keys in insertion order, `list(d)`. */
  function Keys<K, V>(d: seq<(K, V)>): (ks: seq<K>)
    ensures |ks| == |d|
  {
    if d == [] then [] else [d[0].0] + Keys(d[1..])
  }

  /** No key occurs twice, as in every Python dict. */
  predicate Distinct<K(==)>(ks: seq<K>) {
    forall i, j :: 0 <= i < j < |ks| ==> ks[i] != ks[j]
  }

  /** The value stored under `k`, if any (the first entry with key `k`). */
  function Find<K(==), V>(d: seq<(K, V)>, k: K): (r: Option<V>)
    ensures r.None? <==> k !in Keys(d)
  {
    if d == [] then None
    else if d[0].0 == k then Some(d[0].1)
    else
      assert Keys(d) == [d[0].0] + Keys(d[1..]);
      Find(d[1..], k)
  }

  /** `d[k] = v`. */
  function Update<K(==), V>(d: seq<(K, V)>, k: K, v: V): (r: seq<(K, V)>)
    ensures |r| == if k in Keys(d) then |d| else |d| + 1
  {
    if d == [] then [(k, v)]
    else if d[0].0 == k then [(k, v)] + d[1..]
    else
      assert Keys(d) == [d[0].0] + Keys(d[1..]);
      [d[0]] + Update(d[1..], k, v)
  }

  /** After `d[k] = v`, `k` maps to `v` and every other key to what it mapped to before. */
  lemma {:induction false} FindUpdate<K, V>(d: seq<(K, V)>, k: K, v: V, k': K)
    ensures Find(Update(d, k, v), k') == if k' == k then Some(v) else Find(d, k')
  {
    if d != [] && d[0].0 != k {
      FindUpdate(d[1..], k, v, k');
      assert Update(d, k, v)[1..] == Update(d[1..], k, v);
    }
  }

  lemma KeysCons<K, V>(e: (K, V), d: seq<(K, V)>)
    ensures Keys([e] + d) == [e.0] + Keys(d)
  {
  }

  /** `d[k] = v` keeps the key order; a new key goes last. */
  lemma {:induction false} KeysUpdate<K, V>(d: seq<(K, V)>, k: K, v: V)
    ensures Keys(Update(d, k, v)) == if k in Keys(d) then Keys(d) else Keys(d) + [k]
  {
    if d == [] {
      assert Keys(Update(d, k, v)) == [k];
    } else {
      KeysCons(d[0], d[1..]);
      assert d == [d[0]] + d[1..];
      if d[0].0 == k {
        KeysCons((k, v), d[1..]);
      } else {
        var u := Update(d[1..], k, v);
        KeysUpdate(d[1..], k, v);
        KeysCons(d[0], u);
        assert k in Keys(d) <==> k in Keys(d[1..]);
      }
    }
  }
}
