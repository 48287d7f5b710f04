/** Grouping in one pass: a loop that keeps, for each key, the merge of the elements seen so far. */
module GroupBy {
  import opened FirstOccurrence

  function KeysOf<R>(key: R -> string, data: seq<R>): (keys: seq<string>)
    ensures |keys| == |data| && forall i :: 0 <= i < |data| ==> keys[i] == key(data[i])
  {
    seq(|data|, i requires 0 <= i < |data| => key(data[i]))
  }

  /** The elements with this key, in order. */
  function Group<R>(key: R -> string, data: seq<R>, k: string): seq<R> {
    if data == [] then []
    else
      var front, last := Group(key, data[..|data| - 1], k), data[|data| - 1];
      if key(last) == k then front + [last] else front
  }

  /** Merging from left to right. */
  function Reduce<R>(merge: (R, R) -> R, group: seq<R>): R
    requires group != []
  {
    if |group| == 1 then group[0] else merge(Reduce(merge, group[..|group| - 1]), group[|group| - 1])
  }

  lemma {:induction false} GroupMembers<R>(key: R -> string, data: seq<R>, k: string)
    ensures forall r :: r in Group(key, data, k) ==> r in data && key(r) == k
    ensures Group(key, data, k) != [] <==> k in KeysOf(key, data)
    ensures k in KeysOf(key, data) ==> Group(key, data, k)[0] == data[FirstIndex(KeysOf(key, data), k)]
  {
    if data != [] {
      var front := data[..|data| - 1];
      GroupMembers(key, front, k);
      assert KeysOf(key, data)[..|front|] == KeysOf(key, front);
    }
  }

  /** If keys are distinct, every group is a single element. */
  lemma {:induction false} DistinctKeysMakeSingletons<R>(key: R -> string, data: seq<R>, i: nat)
    requires i < |data|
    requires forall a, b :: 0 <= a < b < |data| ==> key(data[a]) != key(data[b])
    ensures Group(key, data, key(data[i])) == [data[i]]
  {
    var front, k := data[..|data| - 1], key(data[i]);
    if i < |front| {
      DistinctKeysMakeSingletons(key, front, i);
    } else {
      GroupMembers(key, front, k);
    }
  }

  /** One merged element for each key, in order of first occurrence. */
  function Grouped<R>(key: R -> string, merge: (R, R) -> R, data: seq<R>): (r: seq<R>)
  {
    var keys := Firsts(KeysOf(key, data));
    FirstsAreDistinctAndOrdered(KeysOf(key, data));
    seq(|keys|, i requires 0 <= i < |keys| =>
      GroupMembers(key, data, keys[i]);
      Reduce(merge, Group(key, data, keys[i])))
  }

  // The loop's dictionaries: key order, merged elements, and the position of each group's first element.
  datatype Groups<R> = Groups(order: seq<string>, values: map<string, R>, first: map<string, nat>)

  function Take<R>(key: R -> string, merge: (R, R) -> R, g: Groups<R>, r: R, n: nat): Groups<R> {
    var k := key(r);
    if k in g.values then g.(values := g.values[k := merge(g.values[k], r)])
    else Groups(g.order + [k], g.values[k := r], g.first[k := n])
  }

  function Fold<R>(key: R -> string, merge: (R, R) -> R, data: seq<R>, n: nat): (g: Groups<R>)
    requires n <= |data|
  {
    if n == 0 then Groups([], map[], map[]) else Take(key, merge, Fold(key, merge, data, n - 1), data[n - 1], n - 1)
  }

  /** The dictionaries are consistent: each key's first element has that key. */
  ghost predicate OwnFirsts<R>(key: R -> string, data: seq<R>, n: nat, g: Groups<R>) {
    && g.first.Keys == g.values.Keys
    && forall k :: k in g.first ==> g.first[k] < n <= |data| && key(data[g.first[k]]) == k
  }

  lemma {:induction false} FoldOwnsFirsts<R>(key: R -> string, merge: (R, R) -> R, data: seq<R>, n: nat)
    requires n <= |data|
    ensures OwnFirsts(key, data, n, Fold(key, merge, data, n))
  {
    if n > 0 {
      FoldOwnsFirsts(key, merge, data, n - 1);
    }
  }

  predicate IsFirst<R>(key: R -> string, data: seq<R>, g: Groups<R>, j: nat)
    requires j < |data|
  {
    key(data[j]) in g.first && g.first[key(data[j])] == j
  }

  /** Merging in place: the value that element j has by now. */
  function Current<R>(key: R -> string, data: seq<R>, g: Groups<R>, j: nat): R
    requires j < |data| && g.first.Keys == g.values.Keys
  {
    if IsFirst(key, data, g, j) then g.values[key(data[j])] else data[j]
  }

  /** In place, one step changes the first element of the new element's group and no other. */
  lemma TakeChangesOne<R>(key: R -> string, merge: (R, R) -> R, data: seq<R>, n: nat, g: Groups<R>, j: nat)
    requires n < |data| && j < |data| && OwnFirsts(key, data, n, g)
    ensures var k, g' := key(data[n]), Take(key, merge, g, data[n], n);
      && OwnFirsts(key, data, n + 1, g')
      && Current(key, data, g, n) == data[n]
      && Current(key, data, g', j) ==
         if k in g.first && j == g.first[k] then merge(Current(key, data, g, j), data[n]) else Current(key, data, g, j)
  {
  }

  /** One more element: its group grows by it, every other group and every first index stays. */
  lemma OneMore<R>(key: R -> string, data: seq<R>, i: nat)
    requires i < |data|
    ensures var keys, k := KeysOf(key, data), key(data[i]);
      && keys[..i + 1] == keys[..i] + [k]
      && Group(key, data[..i + 1], k) == Group(key, data[..i], k) + [data[i]]
      && (k !in keys[..i] ==> Group(key, data[..i], k) == [] && FirstIndex(keys[..i + 1], k) == i)
      && (k in keys[..i] ==> Group(key, data[..i], k) != [])
      && Firsts(keys[..i + 1]) == if k in keys[..i] then Firsts(keys[..i]) else Firsts(keys[..i]) + [k]
    ensures var keys, k := KeysOf(key, data), key(data[i]);
      forall other :: other in keys[..i] ==>
        && FirstIndex(keys[..i + 1], other) == FirstIndex(keys[..i], other)
        && (other != k ==> Group(key, data[..i + 1], other) == Group(key, data[..i], other))
  {
    var keys, k := KeysOf(key, data), key(data[i]);
    assert data[..i + 1][..i] == data[..i] && data[..i + 1][i] == data[i];
    assert keys[..i + 1][..i] == keys[..i] && keys[..i + 1][i] == k;
    assert KeysOf(key, data[..i]) == keys[..i];
    GroupMembers(key, data[..i], k);
  }

  /** What the dictionaries hold for one key after n elements. */
  ghost predicate HoldsGroup<R>(key: R -> string, merge: (R, R) -> R, data: seq<R>, n: nat, g: Groups<R>, k: string)
    requires n <= |data|
  {
    var keys := KeysOf(key, data)[..n];
    var group := Group(key, data[..n], k);
    && (k in g.values <==> k in keys) && (k in g.first <==> k in keys)
    && (k in keys ==> g.first[k] == FirstIndex(keys, k) && group != [] && g.values[k] == Reduce(merge, group))
  }

  lemma ReduceOneMore<R>(merge: (R, R) -> R, group: seq<R>, r: R)
    requires group != []
    ensures Reduce(merge, group + [r]) == merge(Reduce(merge, group), r)
  {
  }

  lemma OneMoreHolds<R>(key: R -> string, merge: (R, R) -> R, data: seq<R>, n: nat, g: Groups<R>, k: string)
    requires n < |data| && HoldsGroup(key, merge, data, n, g, k)
    ensures HoldsGroup(key, merge, data, n + 1, Take(key, merge, g, data[n], n), k)
  {
    OneMore(key, data, n);
    if k == key(data[n]) {
      var group := Group(key, data[..n], k);
      if group == [] {
        assert group + [data[n]] == [data[n]];
      } else {
        ReduceOneMore(merge, group, data[n]);
      }
    }
  }

  /** Going through the elements once computes the group-by, for every key. */
  lemma {:induction false} FoldHolds<R>(key: R -> string, merge: (R, R) -> R, data: seq<R>, n: nat, k: string)
    requires n <= |data|
    ensures HoldsGroup(key, merge, data, n, Fold(key, merge, data, n), k)
  {
    if n == 0 {
      assert KeysOf(key, data)[..0] == [];
    } else {
      FoldHolds(key, merge, data, n - 1, k);
      OneMoreHolds(key, merge, data, n - 1, Fold(key, merge, data, n - 1), k);
    }
  }

  lemma {:induction false} FoldOrder<R>(key: R -> string, merge: (R, R) -> R, data: seq<R>, n: nat)
    requires n <= |data|
    ensures Fold(key, merge, data, n).order == Firsts(KeysOf(key, data)[..n])
  {
    if n == 0 {
      assert KeysOf(key, data)[..0] == [];
    } else {
      var keys := KeysOf(key, data);
      FoldOrder(key, merge, data, n - 1);
      FoldHolds(key, merge, data, n - 1, key(data[n - 1]));
      assert keys[..n][..n - 1] == keys[..n - 1] && keys[..n][n - 1] == key(data[n - 1]);
    }
  }

  /** When the loop is done its dictionaries hold the group-by. */
  lemma LoopGroups<R>(key: R -> string, merge: (R, R) -> R, data: seq<R>)
    ensures var g, keys := Fold(key, merge, data, |data|), KeysOf(key, data);
      && g.order == Firsts(keys)
      && (forall k :: k in g.order <==> k in g.first) && g.first.Keys == g.values.Keys
      && (forall k :: k in g.order ==> k in keys && g.first[k] == FirstIndex(keys, k))
      && |Grouped(key, merge, data)| == |g.order|
      && forall i :: 0 <= i < |g.order| ==> g.values[g.order[i]] == Grouped(key, merge, data)[i]
  {
    var g, keys := Fold(key, merge, data, |data|), KeysOf(key, data);
    FoldOrder(key, merge, data, |data|);
    FoldOwnsFirsts(key, merge, data, |data|);
    FirstsAreDistinctAndOrdered(keys);
    assert keys[..|data|] == keys && data[..|data|] == data;
    forall k
      ensures HoldsGroup(key, merge, data, |data|, g, k)
    {
      FoldHolds(key, merge, data, |data|, k);
    }
    forall k
      ensures k in g.order <==> k in g.first
      ensures k in g.order ==> k in keys && g.first[k] == FirstIndex(keys, k)
    {
      assert HoldsGroup(key, merge, data, |data|, g, k);
    }
    forall i | 0 <= i < |g.order|
      ensures g.values[g.order[i]] == Grouped(key, merge, data)[i]
    {
      assert HoldsGroup(key, merge, data, |data|, g, g.order[i]);
    }
  }

  /** Grouping what was grouped changes nothing, if merging keeps the key of the left element. */
  lemma GroupedTwice<R>(key: R -> string, merge: (R, R) -> R, data: seq<R>)
    requires forall a, b :: key(merge(a, b)) == key(a)
    ensures Grouped(key, merge, Grouped(key, merge, data)) == Grouped(key, merge, data)
  {
    var once, keys := Grouped(key, merge, data), KeysOf(key, data);
    FirstsAreDistinctAndOrdered(keys);
    forall i | 0 <= i < |once|
      ensures key(once[i]) == Firsts(keys)[i]
    {
      GroupMembers(key, data, Firsts(keys)[i]);
      ReduceKeepsKey(key, merge, Group(key, data, Firsts(keys)[i]));
    }
    assert KeysOf(key, once) == Firsts(keys);
    FirstsOfDistinct(Firsts(keys));
    forall i | 0 <= i < |once|
      ensures Grouped(key, merge, once)[i] == once[i]
    {
      DistinctKeysMakeSingletons(key, once, i);
    }
  }

  lemma {:induction false} ReduceKeepsKey<R>(key: R -> string, merge: (R, R) -> R, group: seq<R>)
    requires group != [] && forall a, b :: key(merge(a, b)) == key(a)
    ensures key(Reduce(merge, group)) == key(group[0])
  {
    if |group| > 1 {
      ReduceKeepsKey(key, merge, group[..|group| - 1]);
    }
  }
}
