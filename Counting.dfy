/**
 * Counting occurrences the way the engine and the statistics code do it with a
 * plain JavaScript object: `acc[k] = (acc[k] || 0) + 1`. The object's own keys
 * are enumerated in insertion order, i.e. in the order of first occurrence.
 */
module Counting {

  /** The distinct elements of `s`, in the order of their first occurrence. */
  function Dedup<T(==)>(s: seq<T>): (r: seq<T>)
    ensures forall i :: 0 <= i < |r| ==> r[i] in s
    ensures forall i :: 0 <= i < |s| ==> s[i] in r
    ensures forall i, j :: 0 <= i < j < |r| ==> r[i] != r[j]
    ensures |r| <= |s|
  {
    if |s| == 0 then []
    else
      var d := Dedup(s[..|s| - 1]);
      var x := s[|s| - 1];
      assert forall i :: 0 <= i < |s| - 1 ==> s[i] == s[..|s| - 1][i];
      if x in d then d else d + [x]
  }

  /**
   * `counts` and `order` are the state of a counting dictionary after it has seen
   * `items`: its keys in insertion order, and each key's number of occurrences.
   */
  ghost predicate IsTally<T(!new)>(counts: map<T, nat>, order: seq<T>, items: seq<T>) {
    && order == Dedup(items)
    && (forall k :: k in counts <==> k in multiset(items))
    && (forall k :: k in counts ==> counts[k] == multiset(items)[k])
  }

  /** One `acc[x] = (acc[x] || 0) + 1` step: records one more occurrence of `x`. */
  method Increment<T(==,!new)>(counts: map<T, nat>, order: seq<T>, x: T, ghost items: seq<T>)
    returns (counts': map<T, nat>, order': seq<T>)
    requires IsTally(counts, order, items)
    ensures IsTally(counts', order', items + [x])
  {
    assert (items + [x])[..|items|] == items;
    if x in counts {
      counts' := counts[x := counts[x] + 1];
      order' := order;
    } else {
      counts' := counts[x := 1];
      order' := order + [x];
    }
  }

  /** `xs.forEach((x) => { acc[x] = (acc[x] || 0) + 1; })`: every element of `xs` counted in turn. */
  method CountAll<T(==,!new)>(counts: map<T, nat>, order: seq<T>, xs: seq<T>, ghost before: seq<T>)
    returns (counts': map<T, nat>, order': seq<T>)
    requires IsTally(counts, order, before)
    ensures IsTally(counts', order', before + xs)
  {
    counts', order' := counts, order;
    ghost var seen := before;
    var i := 0;
    while i < |xs|
      invariant 0 <= i <= |xs|
      invariant seen == before + xs[..i]
      invariant IsTally(counts', order', seen)
    {
      counts', order' := Increment(counts', order', xs[i], seen);
      seen := seen + [xs[i]];
      assert xs[..i + 1] == xs[..i] + [xs[i]];
      i := i + 1;
    }
    assert xs[..|xs|] == xs;
  }

  /** Every key of the dictionary is present, with its number of occurrences. */
  lemma TallyLookup<T(!new)>(counts: map<T, nat>, order: seq<T>, items: seq<T>)
    requires IsTally(counts, order, items)
    ensures forall i :: 0 <= i < |order| ==> order[i] in counts && counts[order[i]] == multiset(items)[order[i]]
  {
    forall i | 0 <= i < |order| ensures order[i] in counts && counts[order[i]] == multiset(items)[order[i]] {
      assert order[i] in items;
    }
  }

  /** Sum of the multiplicities in `items` of the keys listed in `keys`. */
  function SumCounts<T(==)>(keys: seq<T>, items: seq<T>): nat {
    if |keys| == 0 then 0
    else SumCounts(keys[..|keys| - 1], items) + multiset(items)[keys[|keys| - 1]]
  }

  /** Adding one item raises the sum over distinct keys by one exactly when the item is a key. */
  lemma {:induction false} SumCountsAppend<T>(keys: seq<T>, items: seq<T>, x: T)
    requires forall i, j :: 0 <= i < j < |keys| ==> keys[i] != keys[j]
    ensures SumCounts(keys, items + [x]) == SumCounts(keys, items) + (if x in keys then 1 else 0)
  {
    if |keys| > 0 {
      var init := keys[..|keys| - 1];
      SumCountsAppend(init, items, x);
      assert x in keys <==> x in init || x == keys[|keys| - 1];
      assert keys[|keys| - 1] !in init;
    }
  }

  /** Every item is counted once: the counts of the distinct items add up to the length. */
  lemma {:induction false} DedupCountsSum<T>(items: seq<T>)
    ensures SumCounts(Dedup(items), items) == |items|
  {
    if |items| > 0 {
      var s := items[..|items| - 1];
      var x := items[|items| - 1];
      assert items == s + [x];
      var d := Dedup(s);
      DedupCountsSum(s);
      SumCountsAppend(d, s, x);
      if x !in d {
        assert x !in s;
        assert multiset(items)[x] == 1;
        assert Dedup(items) == d + [x];
        assert (d + [x])[..|d|] == d;
      }
    }
  }
}
