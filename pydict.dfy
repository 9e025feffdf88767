/** A Python `dict` built by a comprehension over a list of pairs: an
    association list whose keys keep the order of their first insertion and
    whose values are those of the last insertion. */
module PyDict {
  import opened Wrappers

  type Dict<K(==), V> = seq<(K, V)>

  function Keys<K(==), V>(d: Dict<K, V>): (ks: seq<K>)
    ensures |ks| == |d| && forall i :: 0 <= i < |d| ==> ks[i] == d[i].0
  {
    if |d| == 0 then [] else [d[0].0] + Keys(d[1..])
  }

  predicate UniqueKeys<K(==), V>(d: Dict<K, V>) {
    forall i, j :: 0 <= i < j < |d| ==> d[i].0 != d[j].0
  }

  /** The value stored under `k`, if any. */
  function Get<K(==), V>(d: Dict<K, V>, k: K): Option<V> {
    if |d| == 0 then None else if d[0].0 == k then Some(d[0].1) else Get(d[1..], k)
  }

  /** Assignment to a key: an existing key keeps its place, a new key goes last. */
  function Put<K(==), V>(d: Dict<K, V>, k: K, v: V): Dict<K, V> {
    if |d| == 0 then [(k, v)]
    else if d[0].0 == k then [(k, v)] + d[1..]
    else [d[0]] + Put(d[1..], k, v)
  }

  /** A dictionary comprehension over pairs: later pairs overwrite earlier ones. */
  function FromPairs<K(==), V>(pairs: seq<(K, V)>): Dict<K, V> {
    if |pairs| == 0 then []
    else
      var last := pairs[|pairs| - 1];
      Put(FromPairs(pairs[..|pairs| - 1]), last.0, last.1)
  }

  /** Pair `i` is `(k, v)` and no later pair has key `k`. */
  predicate LastPairAt<K(==), V(==)>(pairs: seq<(K, V)>, k: K, v: V, i: int) {
    0 <= i < |pairs| && pairs[i] == (k, v) && forall j :: i < j < |pairs| ==> pairs[j].0 != k
  }

  /** The value of the last pair whose key is `k`. */
  function LastValue<K(==), V(==)>(pairs: seq<(K, V)>, k: K): (r: Option<V>)
    ensures r.Some? <==> exists i :: 0 <= i < |pairs| && pairs[i].0 == k
    ensures r.Some? ==> exists i :: LastPairAt(pairs, k, r.value, i)
  {
    if |pairs| == 0 then None
    else if pairs[|pairs| - 1].0 == k then
      assert LastPairAt(pairs, k, pairs[|pairs| - 1].1, |pairs| - 1);
      Some(pairs[|pairs| - 1].1)
    else
      var front := pairs[..|pairs| - 1];
      var r := LastValue(front, k);
      assert forall i :: 0 <= i < |front| ==> front[i] == pairs[i];
      assert r.Some? ==> forall i :: LastPairAt(front, k, r.value, i) ==> LastPairAt(pairs, k, r.value, i);
      r
  }

  lemma {:induction false} GetPut<K, V>(d: Dict<K, V>, k: K, v: V, k': K)
    ensures Get(Put(d, k, v), k') == if k' == k then Some(v) else Get(d, k')
  {
    if |d| != 0 && d[0].0 != k {
      GetPut(d[1..], k, v, k');
    }
  }

  lemma {:induction false} GetIsKey<K, V>(d: Dict<K, V>, k: K)
    ensures Get(d, k).Some? <==> k in Keys(d)
  {
    if |d| != 0 {
      GetIsKey(d[1..], k);
      assert Keys(d) == [d[0].0] + Keys(d[1..]);
    }
  }

  lemma {:induction false} PutKeepsUnique<K, V>(d: Dict<K, V>, k: K, v: V)
    requires UniqueKeys(d)
    ensures UniqueKeys(Put(d, k, v))
    ensures |Put(d, k, v)| == if k in Keys(d) then |d| else |d| + 1
    ensures forall i :: 0 <= i < |Put(d, k, v)| ==> Put(d, k, v)[i].0 in Keys(d) || Put(d, k, v)[i].0 == k
  {
    if |d| != 0 {
      assert Keys(d) == [d[0].0] + Keys(d[1..]);
      if d[0].0 != k {
        PutKeepsUnique(d[1..], k, v);
        var p := Put(d[1..], k, v);
        assert Put(d, k, v) == [d[0]] + p;
        forall i | 0 < i < |Put(d, k, v)| ensures Put(d, k, v)[i].0 != d[0].0 {
          assert p[i - 1].0 in Keys(d[1..]) || p[i - 1].0 == k;
        }
      }
    }
  }

  /** A comprehension keeps exactly the last value given for each key. */
  lemma {:induction false} GetFromPairs<K, V>(pairs: seq<(K, V)>, k: K)
    ensures Get(FromPairs(pairs), k) == LastValue(pairs, k)
  {
    if |pairs| != 0 {
      var last := pairs[|pairs| - 1];
      GetFromPairs(pairs[..|pairs| - 1], k);
      GetPut(FromPairs(pairs[..|pairs| - 1]), last.0, last.1, k);
    }
  }

  /** Each key of a comprehension appears once. */
  lemma {:induction false} FromPairsUnique<K, V>(pairs: seq<(K, V)>)
    ensures UniqueKeys(FromPairs(pairs))
  {
    if |pairs| != 0 {
      var last := pairs[|pairs| - 1];
      FromPairsUnique(pairs[..|pairs| - 1]);
      PutKeepsUnique(FromPairs(pairs[..|pairs| - 1]), last.0, last.1);
    }
  }

  /** In a dictionary with unique keys, the `i`-th entry is what `Get` finds. */
  lemma {:induction false} GetEntry<K, V>(d: Dict<K, V>, i: nat)
    requires UniqueKeys(d) && i < |d|
    ensures Get(d, d[i].0) == Some(d[i].1)
  {
    if i > 0 {
      GetEntry(d[1..], i - 1);
    }
  }
}
