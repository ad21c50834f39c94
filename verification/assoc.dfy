/** Building a dictionary by assigning `d[key(x)] = val(x)` for each item x
    of a list in turn, skipping items without a key: the pattern every rules
    loader uses. Later items overwrite earlier ones with the same key. */
module Assoc {
  import opened Wrappers

  /** The keys are exactly the keys of the items that have one. */
  function Index<T, K(==,!new), V>(xs: seq<T>, key: T -> Option<K>, val: T -> V): (m: map<K, V>)
    ensures forall k :: k in m <==> exists i :: 0 <= i < |xs| && key(xs[i]) == Some(k)
  {
    if |xs| == 0 then map[]
    else
      var init := xs[..|xs| - 1];
      var m := Index(init, key, val);
      assert forall i :: 0 <= i < |init| ==> init[i] == xs[i];
      match key(xs[|xs| - 1])
      case None => m
      case Some(k) => m[k := val(xs[|xs| - 1])]
  }

  /** No later item has the same key as item i. */
  predicate LastWithKey<T, K(==)>(xs: seq<T>, key: T -> Option<K>, i: int)
    requires 0 <= i < |xs|
  {
    forall j :: i < j < |xs| ==> key(xs[j]) != key(xs[i])
  }

  /** Last write wins: the value stored under a key is that of the last item
      with the key. */
  lemma {:induction false} IndexLastWins<T, K(!new), V>(xs: seq<T>, key: T -> Option<K>, val: T -> V, i: int)
    requires 0 <= i < |xs| && key(xs[i]).Some? && LastWithKey(xs, key, i)
    ensures key(xs[i]).value in Index(xs, key, val)
    ensures Index(xs, key, val)[key(xs[i]).value] == val(xs[i])
    decreases |xs|
  {
    var init := xs[..|xs| - 1];
    if i < |xs| - 1 {
      assert init[i] == xs[i];
      assert LastWithKey(init, key, i) by {
        forall j | i < j < |init| ensures key(init[j]) != key(init[i]) {
          assert init[j] == xs[j];
        }
      }
      IndexLastWins(init, key, val, i);
      assert key(xs[|xs| - 1]) != key(xs[i]);
    }
  }

  /** Each stored value is the value of some item with that key. */
  lemma {:induction false} IndexValues<T, K(!new), V>(xs: seq<T>, key: T -> Option<K>, val: T -> V, k: K)
    requires k in Index(xs, key, val)
    ensures exists i :: 0 <= i < |xs| && key(xs[i]) == Some(k) && Index(xs, key, val)[k] == val(xs[i])
  {
    var i :| 0 <= i < |xs| && key(xs[i]) == Some(k);
    while !LastWithKey(xs, key, i)
      invariant 0 <= i < |xs| && key(xs[i]) == Some(k)
      decreases |xs| - i
    {
      var j :| i < j < |xs| && key(xs[j]) == key(xs[i]);
      i := j;
    }
    IndexLastWins(xs, key, val, i);
  }

  /** Indexing depends only on the values of the items. */
  lemma {:induction false} IndexSameValues<T, K(!new), V>(xs: seq<T>, key: T -> Option<K>, val1: T -> V, val2: T -> V)
    requires forall i :: 0 <= i < |xs| ==> val1(xs[i]) == val2(xs[i])
    ensures Index(xs, key, val1) == Index(xs, key, val2)
    decreases |xs|
  {
    if |xs| > 0 {
      var init := xs[..|xs| - 1];
      assert forall i :: 0 <= i < |init| ==> init[i] == xs[i];
      IndexSameValues(init, key, val1, val2);
    }
  }
}
