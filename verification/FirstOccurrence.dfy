// The distinct elements of a sequence in order of first occurrence.
module FirstOccurrence {

  function FirstIndex<T(==)>(s: seq<T>, t: T): (i: nat)
    requires t in s
    ensures i < |s| && s[i] == t && t !in s[..i]
  {
    var front := s[..|s| - 1];
    if t in front then
      var i := FirstIndex(front, t);
      assert s[..i] == front[..i];
      i
    else |s| - 1
  }

  function Firsts<T(==)>(s: seq<T>): seq<T> {
    if s == [] then []
    else
      var front := s[..|s| - 1];
      if s[|s| - 1] in front then Firsts(front) else Firsts(front) + [s[|s| - 1]]
  }

  /** Elements in order of their first index in s. */
  ghost predicate InFirstOrder<T>(s: seq<T>, r: seq<T>) {
    && (forall t :: t in r ==> t in s)
    && forall i, j :: 0 <= i < j < |r| ==> FirstIndex(s, r[i]) < FirstIndex(s, r[j])
  }

  /** Same elements, none twice, in order of first occurrence. */
  lemma {:induction false} FirstsAreDistinctAndOrdered<T>(s: seq<T>)
    ensures forall t :: t in Firsts(s) <==> t in s
    ensures forall i, j :: 0 <= i < j < |Firsts(s)| ==> Firsts(s)[i] != Firsts(s)[j]
    ensures InFirstOrder(s, Firsts(s))
  {
    if s != [] {
      var front := s[..|s| - 1];
      FirstsAreDistinctAndOrdered(front);
      assert s == front + [s[|s| - 1]];
      assert forall t :: t in front ==> FirstIndex(s, t) == FirstIndex(front, t);
    }
  }

  lemma {:induction false} FirstsOfDistinct<T>(s: seq<T>)
    requires forall i, j :: 0 <= i < j < |s| ==> s[i] != s[j]
    ensures Firsts(s) == s
  {
    if s != [] {
      FirstsOfDistinct(s[..|s| - 1]);
      assert s == s[..|s| - 1] + [s[|s| - 1]];
    }
  }
}
