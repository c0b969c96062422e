/** A Python dict as the suggestion services use it: an association list whose keys keep the
    order of their first insertion, where assigning to an existing key replaces its value in
    place, and where `.get(k)` finds the value last assigned. */
module OrderedDict {
  import opened Wrappers

  datatype Entry<K, V> = Entry(key: K, value: V)

  /** `list(d.keys())`. */
  function Keys<K(==), V>(d: seq<Entry<K, V>>): (ks: seq<K>)
    ensures |ks| == |d|
    ensures forall i :: 0 <= i < |d| ==> ks[i] == d[i].key
  {
    if |d| == 0 then [] else [d[0].key] + Keys(d[1..])
  }

  /** No key appears twice. */
  predicate DistinctKeys<K(==), V>(d: seq<Entry<K, V>>)
  {
    forall i, j :: 0 <= i < j < |d| ==> d[i].key != d[j].key
  }

  /** `d.get(k)`, with `None` for a missing key. */
  function Get<K(==), V>(d: seq<Entry<K, V>>, k: K): (r: Option<V>)
    ensures r.Some? <==> k in Keys(d)
  {
    if |d| == 0 then None
    else if d[0].key == k then Some(d[0].value)
    else
      assert Keys(d) == [d[0].key] + Keys(d[1..]);
      Get(d[1..], k)
  }

  /** `d[k] = v`: replaces the value in place when `k` is present, appends otherwise. */
  function Put<K(==), V>(d: seq<Entry<K, V>>, k: K, v: V): (r: seq<Entry<K, V>>)
  {
    if |d| == 0 then [Entry(k, v)]
    else if d[0].key == k then [Entry(k, v)] + d[1..]
    else [d[0]] + Put(d[1..], k, v)
  }

  /** The key order after an assignment: unchanged for a present key, the new key last. */
  lemma {:induction false} PutKeys<K, V>(d: seq<Entry<K, V>>, k: K, v: V)
    ensures Keys(Put(d, k, v)) == if k in Keys(d) then Keys(d) else Keys(d) + [k]
  {
    if |d| > 0 && d[0].key != k {
      PutKeys(d[1..], k, v);
      assert Keys(d) == [d[0].key] + Keys(d[1..]);
    }
  }

  /** After `d[k] = v`, `d.get(k)` is `v` and every other key reads as before. */
  lemma {:induction false} PutGet<K, V>(d: seq<Entry<K, V>>, k: K, v: V, j: K)
    ensures Get(Put(d, k, v), j) == if j == k then Some(v) else Get(d, j)
  {
    if |d| > 0 && d[0].key != k {
      PutGet(d[1..], k, v, j);
      assert Put(d, k, v)[1..] == Put(d[1..], k, v);
    }
  }

  lemma PutDistinct<K, V>(d: seq<Entry<K, V>>, k: K, v: V)
    requires DistinctKeys(d)
    ensures DistinctKeys(Put(d, k, v))
  {
    PutKeys(d, k, v);
    var r := Put(d, k, v);
    var ks := Keys(r);
    forall i, j | 0 <= i < j < |r|
      ensures r[i].key != r[j].key
    {
      assert r[i].key == ks[i] && r[j].key == ks[j];
      assert ks[i] == Keys(d)[i];
      if j < |d| {
        assert ks[j] == Keys(d)[j];
      } else {
        assert k !in Keys(d);
      }
    }
  }

  /** The dict built by assigning the pairs in order (`for (k, v) in pairs: d[k] = v`). */
  function FromPairs<K(==), V>(pairs: seq<(K, V)>): (d: seq<Entry<K, V>>)
  {
    if |pairs| == 0 then []
    else
      var last := pairs[|pairs| - 1];
      Put(FromPairs(pairs[..|pairs| - 1]), last.0, last.1)
  }

  /** The assignment loop, one pair at a time. */
  method Collect<K(==), V>(pairs: seq<(K, V)>) returns (d: seq<Entry<K, V>>)
    ensures d == FromPairs(pairs)
  {
    d := [];
    for n := 0 to |pairs|
      invariant d == FromPairs(pairs[..n])
    {
      assert pairs[..n + 1][..n] == pairs[..n];
      d := Put(d, pairs[n].0, pairs[n].1);
    }
    assert pairs[..|pairs|] == pairs;
  }

  /** The keys of the built dict are distinct. */
  lemma {:induction false} FromPairsDistinct<K, V>(pairs: seq<(K, V)>)
    ensures DistinctKeys(FromPairs(pairs))
  {
    if |pairs| > 0 {
      var last := pairs[|pairs| - 1];
      FromPairsDistinct(pairs[..|pairs| - 1]);
      PutDistinct(FromPairs(pairs[..|pairs| - 1]), last.0, last.1);
    }
  }

  /** The keys of the built dict are exactly the keys of the pairs. */
  lemma {:induction false} FromPairsKeys<K, V>(pairs: seq<(K, V)>, k: K)
    ensures k in Keys(FromPairs(pairs)) <==> exists i :: 0 <= i < |pairs| && pairs[i].0 == k
  {
    if |pairs| > 0 {
      var init := pairs[..|pairs| - 1];
      var last := pairs[|pairs| - 1];
      FromPairsKeys(init, k);
      PutKeys(FromPairs(init), last.0, last.1);
      if exists i :: 0 <= i < |init| && init[i].0 == k {
        var i :| 0 <= i < |init| && init[i].0 == k;
        assert pairs[i].0 == k;
      }
      if exists i :: 0 <= i < |pairs| && pairs[i].0 == k {
        var i :| 0 <= i < |pairs| && pairs[i].0 == k;
        if i < |init| {
          assert init[i].0 == k;
        }
      }
    }
  }

  /** The value stored under a key is the one of its last pair; a key without pairs is
      missing. */
  lemma {:induction false} FromPairsGet<K, V>(pairs: seq<(K, V)>, i: nat)
    requires i < |pairs|
    requires forall j :: i < j < |pairs| ==> pairs[j].0 != pairs[i].0
    ensures Get(FromPairs(pairs), pairs[i].0) == Some(pairs[i].1)
  {
    var init := pairs[..|pairs| - 1];
    var last := pairs[|pairs| - 1];
    PutGet(FromPairs(init), last.0, last.1, pairs[i].0);
    if i < |pairs| - 1 {
      FromPairsGet(init, i);
    }
  }

  lemma {:induction false} FromPairsMissing<K, V>(pairs: seq<(K, V)>, k: K)
    requires forall j :: 0 <= j < |pairs| ==> pairs[j].0 != k
    ensures Get(FromPairs(pairs), k) == None
  {
    FromPairsKeys(pairs, k);
  }

  /** Each key once, at the position of its first pair. */
  function KeyOrder<K(==), V>(pairs: seq<(K, V)>): seq<K>
  {
    if |pairs| == 0 then []
    else
      var earlier := KeyOrder(pairs[..|pairs| - 1]);
      var k := pairs[|pairs| - 1].0;
      if k in earlier then earlier else earlier + [k]
  }

  /** Keys keep the order of their first assignment; later assignments do not move them. */
  lemma {:induction false} FromPairsKeyOrder<K, V>(pairs: seq<(K, V)>)
    ensures Keys(FromPairs(pairs)) == KeyOrder(pairs)
  {
    if |pairs| > 0 {
      var init := pairs[..|pairs| - 1];
      var last := pairs[|pairs| - 1];
      FromPairsKeyOrder(init);
      PutKeys(FromPairs(init), last.0, last.1);
    }
  }
}
