/** Filtered sequences and insertion-ordered dictionaries. */
module Collections {

  function Filter<T(!new)>(items: seq<T>, keep: T -> bool): (kept: seq<T>)
    ensures forall x :: x in kept <==> x in items && keep(x)
  {
    if items == [] then []
    else
      var front, last := Filter(items[..|items| - 1], keep), items[|items| - 1];
      if keep(last) then front + [last] else front
  }

  lemma {:induction false} FilterAgrees<T(!new)>(items: seq<T>, p: T -> bool, q: T -> bool)
    requires forall x :: x in items ==> p(x) == q(x)
    ensures Filter(items, p) == Filter(items, q)
  {
    if items != [] {
      assert forall x :: x in items[..|items| - 1] ==> x in items;
      FilterAgrees(items[..|items| - 1], p, q);
    }
  }

  lemma {:induction false} FilterAll<T(!new)>(items: seq<T>, p: T -> bool)
    requires forall x :: x in items ==> p(x)
    ensures Filter(items, p) == items
  {
    if items != [] {
      assert forall x :: x in items[..|items| - 1] ==> x in items;
      FilterAll(items[..|items| - 1], p);
      assert items == items[..|items| - 1] + [items[|items| - 1]];
    }
  }

  // A dictionary that remembers the order in which its keys were first set.
  datatype Dict<V> = Dict(keys: seq<string>, values: map<string, V>)
  {
    function Set(k: string, v: V): Dict<V> {
      Dict(if k in values then keys else keys + [k], values[k := v])
    }

    function GetOr(k: string, default: V): V {
      if k in values then values[k] else default
    }
  }

  // ----- the sum of a map's values -----

  ghost function Sum<K>(keys: set<K>, counts: map<K, nat>): nat
    requires keys <= counts.Keys
  {
    if keys == {} then 0
    else
      var k :| k in keys;
      counts[k] + Sum(keys - {k}, counts)
  }

  ghost function Total<K>(counts: map<K, nat>): nat {
    Sum(counts.Keys, counts)
  }

  /** The sum does not depend on the order of the keys. */
  lemma {:induction false} SumWithout<K>(keys: set<K>, counts: map<K, nat>, k: K)
    requires k in keys && keys <= counts.Keys
    ensures Sum(keys, counts) == counts[k] + Sum(keys - {k}, counts)
  {
    var j :| j in keys && Sum(keys, counts) == counts[j] + Sum(keys - {j}, counts);
    if j != k {
      SumWithout(keys - {j}, counts, k);
      SumWithout(keys - {k}, counts, j);
      assert (keys - {j}) - {k} == (keys - {k}) - {j};
    }
  }

  lemma {:induction false} SumAgrees<K>(keys: set<K>, a: map<K, nat>, b: map<K, nat>)
    requires keys <= a.Keys && keys <= b.Keys && forall k :: k in keys ==> a[k] == b[k]
    ensures Sum(keys, a) == Sum(keys, b)
  {
    if keys != {} {
      var k :| k in keys && Sum(keys, a) == a[k] + Sum(keys - {k}, a);
      SumWithout(keys, b, k);
      SumAgrees(keys - {k}, a, b);
    }
  }

  lemma TotalWithout<K>(counts: map<K, nat>, k: K)
    requires k in counts
    ensures Total(counts) == counts[k] + Total(counts - {k})
  {
    SumWithout(counts.Keys, counts, k);
    assert (counts - {k}).Keys == counts.Keys - {k};
    SumAgrees(counts.Keys - {k}, counts, counts - {k});
  }

  function CountIn<K>(counts: map<K, nat>, k: K): nat {
    if k in counts then counts[k] else 0
  }

  function Adding<K>(counts: map<K, nat>, k: K, more: nat): map<K, nat> {
    counts[k := CountIn(counts, k) + more]
  }

  lemma TotalAfterAdding<K>(counts: map<K, nat>, k: K, more: nat)
    ensures Total(Adding(counts, k, more)) == Total(counts) + more
  {
    var after := Adding(counts, k, more);
    TotalWithout(after, k);
    if k in counts {
      TotalWithout(counts, k);
      assert after - {k} == counts - {k};
    } else {
      assert after - {k} == counts;
    }
  }

  /** Adding one map of counts to another, item by item in whatever order the items come. */
  method AddCounts<K(==)>(counts: map<K, nat>, own: map<K, nat>) returns (sum: map<K, nat>)
    ensures forall k :: CountIn(sum, k) == CountIn(counts, k) + CountIn(own, k)
    ensures Total(sum) == Total(counts) + Total(own)
  {
    sum := counts;
    var left := own;
    while left != map[]
      invariant forall k :: CountIn(sum, k) + CountIn(left, k) == CountIn(counts, k) + CountIn(own, k)
      invariant Total(sum) + Total(left) == Total(counts) + Total(own)
      decreases |left|
    {
      var k :| k in left;
      TotalAfterAdding(sum, k, left[k]);
      TotalWithout(left, k);
      sum, left := Adding(sum, k, left[k]), left - {k};
    }
  }

  // ----- splitting a sequence in two -----

  /** The positions, in order, at which a flag has this value. */
  function Positions(flags: seq<bool>, n: nat, wanted: bool): seq<nat>
    requires n <= |flags|
  {
    if n == 0 then []
    else
      var front := Positions(flags, n - 1, wanted);
      if flags[n - 1] == wanted then front + [n - 1] else front
  }

  /** Every position is on exactly one side, and each side keeps the order. */
  lemma {:induction false} EveryPositionIsOnOneSide(flags: seq<bool>, n: nat, wanted: bool)
    requires n <= |flags|
    ensures forall i :: i in Positions(flags, n, wanted) <==> 0 <= i < n && flags[i] == wanted
    ensures forall j, k :: 0 <= j < k < |Positions(flags, n, wanted)| ==> Positions(flags, n, wanted)[j] < Positions(flags, n, wanted)[k]
  {
    if n > 0 {
      EveryPositionIsOnOneSide(flags, n - 1, wanted);
      var front := Positions(flags, n - 1, wanted);
      assert forall k :: 0 <= k < |front| ==> front[k] in front;
    }
  }

  lemma {:induction false} SidesAddUp(flags: seq<bool>, n: nat)
    requires n <= |flags|
    ensures |Positions(flags, n, true)| + |Positions(flags, n, false)| == n
  {
    if n > 0 {
      SidesAddUp(flags, n - 1);
    }
  }
}
