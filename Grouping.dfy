/** `group_reagents`, as both experiment modules write it: a dictionary
    from key to the list of inputs with that key, filled in one pass, whose
    keys come out in order of first appearance. */
module Grouping {

  /** The distinct keys of `xs`, in order of first appearance. */
  function Keys<T, K(==,!new)>(xs: seq<T>, key: T -> K): (ks: seq<K>)
    ensures forall k :: k in ks <==> exists i | 0 <= i < |xs| :: key(xs[i]) == k
    ensures forall i, j | 0 <= i < j < |ks| :: ks[i] != ks[j]
  {
    if xs == [] then []
    else
      var init := xs[..|xs| - 1];
      var ks := Keys(init, key);
      assert forall i | 0 <= i < |init| :: init[i] == xs[i];
      if key(xs[|xs| - 1]) in ks then ks else ks + [key(xs[|xs| - 1])]
  }

  /** The inputs with key `k`, in input order. */
  function Group<T, K(==,!new)>(xs: seq<T>, key: T -> K, k: K): (g: seq<T>)
    ensures |g| <= |xs|
    ensures forall i | 0 <= i < |g| :: key(g[i]) == k
  {
    if xs == [] then []
    else
      var g := Group(xs[..|xs| - 1], key, k);
      if key(xs[|xs| - 1]) == k then g + [xs[|xs| - 1]] else g
  }

  /** Every input with key `k` is in its group. */
  lemma {:induction false} GroupHasAll<T, K(!new)>(xs: seq<T>, key: T -> K, i: nat)
    requires i < |xs|
    ensures xs[i] in Group(xs, key, key(xs[i]))
  {
    var init := xs[..|xs| - 1];
    if i < |xs| - 1 {
      assert init[i] == xs[i];
      GroupHasAll(init, key, i);
    }
  }

  /** A key no input has gets no group. */
  lemma GroupOfAbsentKey<T, K(!new)>(xs: seq<T>, key: T -> K, k: K)
    requires k !in Keys(xs, key)
    ensures Group(xs, key, k) == []
  {
    GroupedKeyIsKey(xs, key, k);
  }

  lemma GroupedKeyIsKey<T, K(!new)>(xs: seq<T>, key: T -> K, k: K)
    ensures |Group(xs, key, k)| > 0 ==> k in Keys(xs, key)
  {
    var g := Group(xs, key, k);
    if |g| > 0 {
      GroupMembers(xs, key, k, 0);
      var i :| 0 <= i < |xs| && xs[i] == g[0];
      assert key(xs[i]) == k;
    }
  }

  /** Every member of a group is an input. */
  lemma {:induction false} GroupMembers<T, K(!new)>(xs: seq<T>, key: T -> K, k: K, j: nat)
    requires j < |Group(xs, key, k)|
    ensures exists i | 0 <= i < |xs| :: xs[i] == Group(xs, key, k)[j]
  {
    var init := xs[..|xs| - 1];
    var g := Group(init, key, k);
    if j < |g| {
      GroupMembers(init, key, k, j);
      var i :| 0 <= i < |init| && init[i] == g[j];
      assert xs[i] == init[i];
    } else {
      assert Group(xs, key, k)[j] == xs[|xs| - 1];
    }
  }

  /** `group_reagents`: one pass over the inputs, creating a group the first
      time a key is met and appending every input to its group. */
  method GroupBy<T, K(==,!new)>(xs: seq<T>, key: T -> K) returns (keys: seq<K>, groups: map<K, seq<T>>)
    ensures keys == Keys(xs, key)
    ensures forall k :: k in groups <==> k in keys
    ensures forall k | k in groups :: groups[k] == Group(xs, key, k)
  {
    keys := [];
    groups := map[];
    for i := 0 to |xs|
      invariant keys == Keys(xs[..i], key)
      invariant forall k :: k in groups <==> k in keys
      invariant forall k | k in groups :: groups[k] == Group(xs[..i], key, k)
    {
      var k := key(xs[i]);
      assert xs[..i + 1][..i] == xs[..i];
      if k !in groups {
        GroupOfAbsentKey(xs[..i], key, k);
        groups := groups[k := []];
        keys := keys + [k];
      }
      groups := groups[k := groups[k] + [xs[i]]];
    }
    assert xs[..|xs|] == xs;
  }

  /** The sizes of the groups of the keys `ks`, added up. */
  function TotalSize<T, K(==,!new)>(xs: seq<T>, key: T -> K, ks: seq<K>): nat {
    if ks == [] then 0 else TotalSize(xs, key, ks[..|ks| - 1]) + |Group(xs, key, ks[|ks| - 1])|
  }

  /** Appending one input adds one to the total size over any list of
      distinct keys holding its key, and nothing otherwise. */
  lemma {:induction false} TotalSizeAppend<T, K(!new)>(xs: seq<T>, x: T, key: T -> K, ks: seq<K>)
    requires forall i, j | 0 <= i < j < |ks| :: ks[i] != ks[j]
    ensures TotalSize(xs + [x], key, ks) == TotalSize(xs, key, ks) + (if key(x) in ks then 1 else 0)
  {
    assert (xs + [x])[..|xs|] == xs;
    if ks != [] {
      var init := ks[..|ks| - 1];
      TotalSizeAppend(xs, x, key, init);
      assert key(x) in ks <==> key(x) in init || key(x) == ks[|ks| - 1];
      assert key(x) == ks[|ks| - 1] ==> key(x) !in init;
    }
  }

  /** The groups partition the input: their sizes add up to its length. */
  lemma {:induction false} GroupsPartition<T, K(!new)>(xs: seq<T>, key: T -> K)
    ensures TotalSize(xs, key, Keys(xs, key)) == |xs|
  {
    if xs != [] {
      var init := xs[..|xs| - 1];
      var x := xs[|xs| - 1];
      assert xs == init + [x];
      GroupsPartition(init, key);
      var ks := Keys(init, key);
      TotalSizeAppend(init, x, key, ks);
      if key(x) !in ks {
        var ks2 := ks + [key(x)];
        assert ks2[..|ks2| - 1] == ks;
        GroupOfAbsentKey(init, key, key(x));
        assert Group(xs, key, key(x)) == [x];
      }
    }
  }
}
