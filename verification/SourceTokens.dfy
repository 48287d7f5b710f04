/** The '+'-separated source tokens of an inventory row and their merge. */
module SourceTokens {

  const SEPARATOR: char := '+'

  /** str.split("+"): one part more than there are separators. */
  function Split(s: string): (parts: seq<string>)
    ensures |parts| > 0
    ensures forall p :: p in parts ==> SEPARATOR !in p
  {
    if s == "" then [""]
    else
      var rest := Split(s[1..]);
      if s[0] == SEPARATOR then [""] + rest else [[s[0]] + rest[0]] + rest[1..]
  }

  /** "+".join */
  function Join(parts: seq<string>): string {
    if parts == [] then ""
    else if |parts| == 1 then parts[0]
    else parts[0] + [SEPARATOR] + Join(parts[1..])
  }

  /** The tokens kept so far, and then the parts that are non-empty and new. */
  function Collect(kept: seq<string>, parts: seq<string>): seq<string> {
    if parts == [] then kept
    else
      var before := Collect(kept, parts[..|parts| - 1]);
      var last := parts[|parts| - 1];
      if last != "" && last !in before then before + [last] else before
  }

  /** The distinct non-empty tokens of a value, in order of first occurrence. */
  function Tokens(s: string): seq<string> {
    Collect([], Split(s))
  }

  function Merged(left: string, right: string): string {
    Join(Collect(Tokens(left), Split(right)))
  }

  /** _merge_token */
  method MergeToken(left: string, right: string) returns (merged: string)
    ensures merged == Merged(left, right)
  {
    var tokens: seq<string> := [];
    var values := [left, right];
    for i := 0 to 2
      invariant tokens == if i == 0 then [] else if i == 1 then Tokens(left) else Collect(Tokens(left), Split(right))
    {
      ghost var before := tokens;
      var parts := Split(values[i]);
      assert parts[..0] == [];
      for j := 0 to |parts|
        invariant tokens == Collect(before, parts[..j])
      {
        assert parts[..j + 1][..j] == parts[..j];
        if parts[j] != "" && parts[j] !in tokens {
          tokens := tokens + [parts[j]];
        }
      }
      assert parts[..|parts|] == parts;
    }
    merged := Join(tokens);
  }

  // ----- splitting undoes joining -----

  lemma {:induction false} SplitPart(p: string, rest: string)
    requires SEPARATOR !in p
    ensures Split(p + [SEPARATOR] + rest) == [p] + Split(rest)
    ensures Split(p) == [p]
  {
    if p == "" {
      assert (p + [SEPARATOR] + rest)[1..] == rest;
    } else {
      assert (p + [SEPARATOR] + rest)[1..] == p[1..] + [SEPARATOR] + rest;
      SplitPart(p[1..], rest);
      assert [p[0]] + p[1..] == p;
    }
  }

  lemma {:induction false} SplitJoin(parts: seq<string>)
    requires parts != [] && forall p :: p in parts ==> SEPARATOR !in p
    ensures Split(Join(parts)) == parts
  {
    if |parts| == 1 {
      SplitPart(parts[0], "");
    } else {
      SplitPart(parts[0], Join(parts[1..]));
      SplitJoin(parts[1..]);
      assert parts == [parts[0]] + parts[1..];
    }
  }

  // ----- collecting -----

  predicate Clean(ts: seq<string>) {
    && (forall i, j :: 0 <= i < j < |ts| ==> ts[i] != ts[j])
    && (forall t :: t in ts ==> t != "" && SEPARATOR !in t)
  }

  /** The result has no duplicates and no empty token, starts with what was kept, and holds exactly
      the kept tokens and the non-empty parts. */
  lemma {:induction false} CollectIsSet(kept: seq<string>, parts: seq<string>)
    requires Clean(kept) && forall p :: p in parts ==> SEPARATOR !in p
    ensures Clean(Collect(kept, parts)) && kept <= Collect(kept, parts)
    ensures forall t :: t in Collect(kept, parts) <==> t in kept || (t in parts && t != "")
  {
    if parts != [] {
      var front, last := parts[..|parts| - 1], parts[|parts| - 1];
      CollectIsSet(kept, front);
      assert forall t :: t in parts <==> t in front || t == last;
    }
  }

  lemma {:induction false} CollectConcatenation(kept: seq<string>, a: seq<string>, b: seq<string>)
    ensures Collect(kept, a + b) == Collect(Collect(kept, a), b)
  {
    if b == [] {
      assert a + b == a;
    } else {
      assert (a + b)[..|a + b| - 1] == a + b[..|b| - 1];
      CollectConcatenation(kept, a, b[..|b| - 1]);
    }
  }

  /** Parts that were already collected once collect like the parts they came from. */
  lemma {:induction false} CollectCollected(kept: seq<string>, parts: seq<string>)
    requires Clean(kept) && forall p :: p in parts ==> SEPARATOR !in p
    ensures Collect(kept, Collect([], parts)) == Collect(kept, parts)
  {
    if parts != [] {
      var front, last := parts[..|parts| - 1], parts[|parts| - 1];
      var once := Collect([], front);
      CollectCollected(kept, front);
      CollectIsSet([], front);
      CollectIsSet(kept, front);
      if last != "" && last !in once {
        assert (once + [last])[..|once|] == once;
      }
    }
  }

  /** Parts that are all kept already add nothing. */
  lemma {:induction false} CollectKnown(kept: seq<string>, parts: seq<string>)
    requires forall p :: p in parts ==> p == "" || p in kept
    ensures Collect(kept, parts) == kept
  {
    if parts != [] {
      CollectKnown(kept, parts[..|parts| - 1]);
    }
  }

  lemma TokensAreClean(s: string)
    ensures Clean(Tokens(s))
    ensures forall t :: t in Tokens(s) <==> t in Split(s) && t != ""
  {
    CollectIsSet([], Split(s));
  }

  // ----- the laws of the merge -----

  /** A joined list of clean tokens gives back exactly those tokens. */
  lemma TokensOfJoin(ts: seq<string>)
    requires Clean(ts)
    ensures Tokens(Join(ts)) == ts
    ensures forall kept :: Clean(kept) ==> Collect(kept, Split(Join(ts))) == Collect(kept, ts)
  {
    if ts == [] {
      assert Split("") == [""];
      assert Collect([], [""]) == [];
      forall kept | Clean(kept)
        ensures Collect(kept, Split("")) == kept
      {
        CollectKnown(kept, [""]);
      }
    } else {
      SplitJoin(ts);
      CleanCollectsWhole(ts);
    }
  }

  lemma {:induction false} CleanCollectsWhole(ts: seq<string>)
    requires Clean(ts)
    ensures Collect([], ts) == ts
  {
    if ts != [] {
      var front := ts[..|ts| - 1];
      assert forall t :: t in front ==> t in ts;
      CleanCollectsWhole(front);
      assert ts[|ts| - 1] in ts && ts[|ts| - 1] !in front;
      assert ts == front + [ts[|ts| - 1]];
    }
  }

  /** Splitting a merge gives back the distinct non-empty tokens of both values, in order. */
  lemma MergeRoundTrip(left: string, right: string)
    ensures Tokens(Merged(left, right)) == Collect([], Split(left) + Split(right))
    ensures Clean(Tokens(Merged(left, right)))
  {
    TokensAreClean(left);
    CollectIsSet(Tokens(left), Split(right));
    TokensOfJoin(Collect(Tokens(left), Split(right)));
    CollectConcatenation([], Split(left), Split(right));
  }

  lemma MergeIsAssociative(a: string, b: string, c: string)
    ensures Merged(Merged(a, b), c) == Merged(a, Merged(b, c))
  {
    var ta, tb := Tokens(a), Tokens(b);
    TokensAreClean(a);
    TokensAreClean(b);
    CollectIsSet(ta, Split(b));
    CollectIsSet(tb, Split(c));
    TokensOfJoin(Collect(ta, Split(b)));
    TokensOfJoin(Collect(tb, Split(c)));
    // Both sides collect the parts of b and then those of c into the tokens of a.
    CollectConcatenation([], Split(b), Split(c));
    CollectCollected(ta, Split(b) + Split(c));
    CollectConcatenation(ta, Split(b), Split(c));
  }

  /** Merging with a value whose tokens are all there, such as the value itself, adds nothing. */
  lemma MergeAddsOnlyNewTokens(left: string, right: string)
    requires forall t :: t in Tokens(right) ==> t in Tokens(left)
    ensures Merged(left, right) == Join(Tokens(left))
    ensures Tokens(Merged(left, right)) == Tokens(left)
  {
    TokensAreClean(left);
    TokensAreClean(right);
    CollectKnown(Tokens(left), Split(right));
    TokensOfJoin(Tokens(left));
  }

  /** The sources of a group of rows, merged from left to right as the rows come in. */
  function MergedSource(sources: seq<string>): string
    requires sources != []
  {
    if |sources| == 1 then sources[0]
    else Merged(MergedSource(sources[..|sources| - 1]), sources[|sources| - 1])
  }

  function AllParts(sources: seq<string>): seq<string> {
    if sources == [] then [] else AllParts(sources[..|sources| - 1]) + Split(sources[|sources| - 1])
  }

  /** Merging a group row by row is collecting all its tokens once; a single row keeps its source as it is. */
  lemma {:induction false} GroupMergesOnce(sources: seq<string>)
    requires sources != []
    ensures Tokens(MergedSource(sources)) == Collect([], AllParts(sources))
    ensures |sources| > 1 ==> MergedSource(sources) == Join(Collect([], AllParts(sources)))
  {
    var front, last := sources[..|sources| - 1], sources[|sources| - 1];
    if |sources| == 1 {
      assert AllParts(front) == [] && AllParts(sources) == [] + Split(last);
      assert [] + Split(last) == Split(last);
    } else {
      GroupMergesOnce(front);
      CollectConcatenation([], AllParts(front), Split(last));
      MergeRoundTrip(MergedSource(front), last);
      CollectConcatenation([], Split(MergedSource(front)), Split(last));
    }
  }
}
