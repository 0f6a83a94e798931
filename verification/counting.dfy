/** Counting by key, the aggregation `_summarize_user_activity` performs with
    `counts[k] = counts.get(k, 0) + 1` over an insertion-ordered dict. */
module Counting {
  import opened Wrappers
  import opened Dicts

  /** `counts[k] = counts.get(k, 0) + 1`. */
  function Increment<K(==)>(counts: seq<(K, nat)>, k: K): seq<(K, nat)> {
    Update(counts, k, Find(counts, k).GetOr(0) + 1)
  }

  /** The count-per-key dict the loop builds, key by key in input order. */
  function CountByKey<K(==)>(ks: seq<K>): seq<(K, nat)> {
    if ks == [] then [] else Increment(CountByKey(ks[..|ks| - 1]), ks[|ks| - 1])
  }

  /** Counting one more key is one more increment. */
  lemma CountByKeySnoc<K>(ks: seq<K>, k: K)
    ensures CountByKey(ks + [k]) == Increment(CountByKey(ks), k)
  {
  }

  /** The sum of a count dict's values. */
  function Total<K>(counts: seq<(K, nat)>): nat {
    if counts == [] then 0 else counts[0].1 + Total(counts[1..])
  }

  /** `Update` changes the sum of the values by the change under its key. */
  lemma {:induction false} TotalUpdate<K>(counts: seq<(K, nat)>, k: K, v: nat)
    ensures Total(Update(counts, k, v)) + Find(counts, k).GetOr(0) == Total(counts) + v
  {
    if counts != [] && counts[0].0 != k {
      TotalUpdate(counts[1..], k, v);
      assert Update(counts, k, v)[1..] == Update(counts[1..], k, v);
    }
  }

  /** An increment changes only its key's entry, by one. */
  lemma FindIncrement<K>(counts: seq<(K, nat)>, key: K, k: K)
    ensures Find(Increment(counts, key), k) ==
              if k == key then Some(Find(counts, key).GetOr(0) + 1) else Find(counts, k)
  {
    var n: nat := Find(counts, key).GetOr(0) + 1;
    assert Increment(counts, key) == Update(counts, key, n);
    FindUpdate(counts, key, n, k);
  }

  /** A key's count is its number of occurrences; an absent key has none. */
  lemma {:induction false} CountByKeyCount<K>(ks: seq<K>, k: K)
    ensures Find(CountByKey(ks), k) == if k in ks then Some(multiset(ks)[k]) else None
  {
    if ks != [] {
      var c, last := CountByKey(ks[..|ks| - 1]), ks[|ks| - 1];
      assert CountByKey(ks) == Increment(c, last);
      FindIncrement(c, last, k);
      CountByKeyCount(ks[..|ks| - 1], k);
      MultisetSnoc(ks);
    }
  }

  lemma MultisetSnoc<K>(ks: seq<K>)
    requires ks != []
    ensures var init, last := ks[..|ks| - 1], ks[|ks| - 1];
            && multiset(ks) == multiset(init) + multiset{last}
            && forall k :: k in ks <==> k in init || k == last
  {
    assert ks == ks[..|ks| - 1] + [ks[|ks| - 1]];
  }

  /** The keys are the distinct keys of the input, each once. */
  lemma {:induction false} CountByKeyKeys<K>(ks: seq<K>)
    ensures Distinct(Keys(CountByKey(ks)))
    ensures forall k :: k in Keys(CountByKey(ks)) <==> k in ks
  {
    if ks != [] {
      var init, last := ks[..|ks| - 1], ks[|ks| - 1];
      CountByKeyKeys(init);
      assert ks == init + [last];
      var c := CountByKey(init);
      KeysUpdate(c, last, Find(c, last).GetOr(0) + 1);
    }
  }

  /** The counts add up to the number of keys counted. */
  lemma {:induction false} CountByKeyTotal<K>(ks: seq<K>)
    ensures Total(CountByKey(ks)) == |ks|
  {
    if ks != [] {
      var init := ks[..|ks| - 1];
      CountByKeyTotal(init);
      var c := CountByKey(init);
      TotalUpdate(c, ks[|ks| - 1], Find(c, ks[|ks| - 1]).GetOr(0) + 1);
    }
  }
}
