/** Grouping items by asset into a Python dict of lists: keys keep the order in which they
    were first seen, each key's list keeps the items in input order, and an item whose asset
    is empty (falsy) is skipped. Both sentiment calculators group their input this way. */
module Grouping {

  /** The dict's keys in insertion order: every non-empty asset, at its first occurrence. */
  function FirstSeen<T>(items: seq<T>, asset: T -> string): (keys: seq<string>)
    ensures forall k :: k in keys ==> k != ""
  {
    if |items| == 0 then []
    else
      var earlier := FirstSeen(items[..|items| - 1], asset);
      var k := asset(items[|items| - 1]);
      if k == "" || k in earlier then earlier else earlier + [k]
  }

  /** The list stored under key `k`: the items with that asset, in input order. */
  function Members<T>(items: seq<T>, asset: T -> string, k: string): (group: seq<T>)
    ensures |group| <= |items|
    ensures forall x :: x in group ==> x in items && asset(x) == k
  {
    if |items| == 0 then []
    else
      var earlier := Members(items[..|items| - 1], asset, k);
      var x := items[|items| - 1];
      if asset(x) == k then earlier + [x] else earlier
  }

  /** The grouping loop: appends each item with a non-empty asset to its key's list,
      creating the list (and the key) on the asset's first occurrence. */
  method GroupByAsset<T>(items: seq<T>, asset: T -> string)
    returns (keys: seq<string>, groups: map<string, seq<T>>)
    ensures keys == FirstSeen(items, asset)
    ensures forall k :: k in groups <==> k in keys
    ensures forall k :: k in groups ==> groups[k] == Members(items, asset, k)
  {
    keys := [];
    groups := map[];
    for n := 0 to |items|
      invariant keys == FirstSeen(items[..n], asset)
      invariant forall k :: k in groups <==> k in keys
      invariant forall k :: k in groups ==> groups[k] == Members(items[..n], asset, k)
    {
      var item := items[n];
      assert items[..n + 1][..n] == items[..n];
      var k := asset(item);
      if k == "" {
        assert forall j :: j in groups ==> Members(items[..n + 1], asset, j) == Members(items[..n], asset, j);
        continue;
      }
      if k !in groups {
        keys := keys + [k];
        groups := groups[k := []];
        assert Members(items[..n], asset, k) == [] by {
          MembersEmpty(items[..n], asset, k);
        }
      }
      groups := groups[k := groups[k] + [item]];
    }
    assert items[..|items|] == items;
  }

  /** A key that was never seen has an empty list. */
  lemma {:induction false} MembersEmpty<T>(items: seq<T>, asset: T -> string, k: string)
    requires k != "" && k !in FirstSeen(items, asset)
    ensures Members(items, asset, k) == []
  {
    if |items| > 0 {
      MembersEmpty(items[..|items| - 1], asset, k);
    }
  }

  /** The keys are exactly the non-empty assets that occur in the input. */
  lemma {:induction false} FirstSeenKeys<T>(items: seq<T>, asset: T -> string, k: string)
    ensures k in FirstSeen(items, asset) <==> k != "" && exists i :: 0 <= i < |items| && asset(items[i]) == k
  {
    if |items| > 0 {
      var init := items[..|items| - 1];
      FirstSeenKeys(init, asset, k);
      if exists i :: 0 <= i < |init| && asset(init[i]) == k {
        var i :| 0 <= i < |init| && asset(init[i]) == k;
        assert asset(items[i]) == k;
      }
      if exists i :: 0 <= i < |items| && asset(items[i]) == k {
        var i :| 0 <= i < |items| && asset(items[i]) == k;
        if i < |init| {
          assert asset(init[i]) == k;
        }
      }
    }
  }

  /** No key occurs twice, as in a dict. */
  lemma {:induction false} FirstSeenDistinct<T>(items: seq<T>, asset: T -> string)
    ensures forall i, j :: 0 <= i < j < |FirstSeen(items, asset)| ==>
              FirstSeen(items, asset)[i] != FirstSeen(items, asset)[j]
  {
    if |items| > 0 {
      FirstSeenDistinct(items[..|items| - 1], asset);
    }
  }

  /** Every group is non-empty: a key exists only because some item carried it. */
  lemma {:induction false} GroupsNonEmpty<T>(items: seq<T>, asset: T -> string, k: string)
    requires k in FirstSeen(items, asset)
    ensures |Members(items, asset, k)| > 0
  {
    var init := items[..|items| - 1];
    if k in FirstSeen(init, asset) {
      GroupsNonEmpty(init, asset, k);
    }
  }

  /** Every item with a non-empty asset lands in exactly one group: the group sizes add up to
      the number of such items. */
  lemma {:induction false} GroupSizesAddUp<T>(items: seq<T>, asset: T -> string)
    ensures TotalSize(items, asset, FirstSeen(items, asset)) == Carried(items, asset)
  {
    if |items| > 0 {
      var init := items[..|items| - 1];
      var x := items[|items| - 1];
      assert items == init + [x];
      var earlier := FirstSeen(init, asset);
      GroupSizesAddUp(init, asset);
      FirstSeenDistinct(init, asset);
      SizesStep(init, x, asset, earlier);
      assert Carried(items, asset) == Carried(init, asset) + (if asset(x) != "" then 1 else 0);
      if asset(x) != "" && asset(x) !in earlier {
        MembersEmpty(init, asset, asset(x));
        assert |Members(items, asset, asset(x))| == 1;
        TotalSizeSnoc(items, asset, earlier, asset(x));
      } else {
        assert FirstSeen(items, asset) == earlier;
      }
    }
  }

  /** Number of items whose asset is non-empty. */
  function Carried<T>(items: seq<T>, asset: T -> string): nat
  {
    if |items| == 0 then 0
    else Carried(items[..|items| - 1], asset) + (if asset(items[|items| - 1]) != "" then 1 else 0)
  }

  /** Sum of the group sizes over a list of keys. */
  function TotalSize<T>(items: seq<T>, asset: T -> string, keys: seq<string>): nat
  {
    if |keys| == 0 then 0
    else TotalSize(items, asset, keys[..|keys| - 1]) + |Members(items, asset, keys[|keys| - 1])|
  }

  lemma TotalSizeSnoc<T>(items: seq<T>, asset: T -> string, keys: seq<string>, k: string)
    ensures TotalSize(items, asset, keys + [k]) == TotalSize(items, asset, keys) + |Members(items, asset, k)|
  {
    assert (keys + [k])[..|keys|] == keys;
  }

  /** Appending `x` grows the group of `asset(x)` by one and leaves the others as they are. */
  lemma {:induction false} SizesStep<T>(init: seq<T>, x: T, asset: T -> string, keys: seq<string>)
    ensures TotalSize(init + [x], asset, keys) ==
            TotalSize(init, asset, keys) + (if asset(x) in keys then 1 else 0)
    requires forall i, j :: 0 <= i < j < |keys| ==> keys[i] != keys[j]
  {
    var items := init + [x];
    assert items[..|items| - 1] == init;
    if |keys| > 0 {
      var front := keys[..|keys| - 1];
      SizesStep(init, x, asset, front);
      assert asset(x) in keys <==> asset(x) in front || asset(x) == keys[|keys| - 1];
      if asset(x) == keys[|keys| - 1] {
        assert asset(x) !in front;
      }
    }
  }
}
