/** Stripping texts, and keeping the first text for each key. */
module DistinctTexts {
  import opened FirstOccurrence
  import opened GroupBy

  /** The characters that str.strip removes. */
  predicate IsSpace(c: char) {
    var n := c as int;
    || 0x9 <= n <= 0xD || 0x1C <= n <= 0x20 || n in {0x85, 0xA0, 0x1680, 0x2028, 0x2029, 0x202F, 0x205F, 0x3000}
    || 0x2000 <= n <= 0x200A
  }

  function StripLeft(s: string): (r: string)
    ensures r != "" ==> !IsSpace(r[0])
    ensures r == "" <==> forall c :: c in s ==> IsSpace(c)
  {
    if s != "" && IsSpace(s[0]) then StripLeft(s[1..]) else s
  }

  function StripRight(s: string): (r: string)
    ensures r <= s && (r != "" ==> !IsSpace(r[|r| - 1]))
    ensures r == "" <==> forall c :: c in s ==> IsSpace(c)
  {
    if s != "" && IsSpace(s[|s| - 1]) then StripRight(s[..|s| - 1]) else s
  }

  function Strip(s: string): string {
    StripRight(StripLeft(s))
  }

  predicate Blank(s: string) {
    Strip(s) == ""
  }

  lemma StripTwice(s: string)
    ensures Strip(Strip(s)) == Strip(s)
    ensures Blank(s) <==> forall c :: c in s ==> IsSpace(c)
  {
  }

  predicate Trimmed(s: string) {
    s != "" && Strip(s) == s
  }

  /** The stripped texts that are not empty. */
  function Stripped(values: seq<string>): (r: seq<string>)
    ensures forall v :: v in r ==> Trimmed(v)
  {
    if values == [] then []
    else
      var front, last := Stripped(values[..|values| - 1]), Strip(values[|values| - 1]);
      StripTwice(values[|values| - 1]);
      if last == "" then front else front + [last]
  }

  function FirstOfEachKey(key: string -> string, vs: seq<string>): seq<string> {
    if vs == [] then []
    else
      var front, last := vs[..|vs| - 1], vs[|vs| - 1];
      if key(last) in KeysOf(key, front) then FirstOfEachKey(key, front) else FirstOfEachKey(key, front) + [last]
  }

  /** One text for every key, in order of the keys' first occurrence. */
  lemma {:induction false} OneForEachKey(key: string -> string, vs: seq<string>)
    ensures KeysOf(key, FirstOfEachKey(key, vs)) == Firsts(KeysOf(key, vs))
  {
    if vs != [] {
      var front, last := vs[..|vs| - 1], vs[|vs| - 1];
      OneForEachKey(key, front);
      assert KeysOf(key, vs)[..|front|] == KeysOf(key, front);
      assert KeysOf(key, FirstOfEachKey(key, front) + [last]) == KeysOf(key, FirstOfEachKey(key, front)) + [key(last)];
    }
  }

  lemma FirstIndexStays(keys: seq<string>, last: string, k: string)
    requires k in keys
    ensures FirstIndex(keys + [last], k) == FirstIndex(keys, k)
  {
  }

  /** Each text that is kept is the first one with its key. */
  lemma {:induction false} KeptIsTheFirst(key: string -> string, vs: seq<string>, v: string)
    requires v in FirstOfEachKey(key, vs)
    ensures key(v) in KeysOf(key, vs) && v == vs[FirstIndex(KeysOf(key, vs), key(v))]
  {
    var front, last := vs[..|vs| - 1], vs[|vs| - 1];
    var keys := KeysOf(key, front);
    assert KeysOf(key, vs) == keys + [key(last)];
    if v in FirstOfEachKey(key, front) {
      KeptIsTheFirst(key, front, v);
      FirstIndexStays(keys, key(last), key(v));
    } else {
      assert v == last && key(last) !in keys;
      assert KeysOf(key, vs)[..|vs| - 1] == keys;
    }
  }

  /** The loop of _review_urls, _affected_material_fields and _unique: a list and the set of keys seen. */
  method KeepFirst(values: seq<string>, key: string -> string) returns (kept: seq<string>)
    ensures kept == FirstOfEachKey(key, Stripped(values))
  {
    kept := [];
    var seen: set<string> := {};
    for i := 0 to |values|
      invariant kept == FirstOfEachKey(key, Stripped(values[..i]))
      invariant forall k :: k in seen <==> k in KeysOf(key, Stripped(values[..i]))
    {
      var value := Strip(values[i]);
      assert values[..i + 1][..i] == values[..i];
      ghost var before := Stripped(values[..i]);
      assert (before + [value])[..|before|] == before;
      assert KeysOf(key, before + [value]) == KeysOf(key, before) + [key(value)];
      if value != "" && key(value) !in seen {
        seen := seen + {key(value)};
        kept := kept + [value];
      }
    }
    assert values[..|values|] == values;
  }

  /** _unique */
  method Unique(values: seq<string>) returns (kept: seq<string>)
    ensures kept == Firsts(Stripped(values))
  {
    kept := KeepFirst(values, v => v);
    ghost var id: string -> string := v => v;
    IdentityKeys(id, kept);
    IdentityKeys(id, Stripped(values));
    OneForEachKey(id, Stripped(values));
  }

  lemma IdentityKeys(id: string -> string, vs: seq<string>)
    requires forall v :: id(v) == v
    ensures KeysOf(id, vs) == vs
  {
  }

  lemma {:induction false} StrippedOfStripped(vs: seq<string>)
    requires forall v :: v in vs ==> Trimmed(v)
    ensures Stripped(vs) == vs
  {
    if vs != [] {
      var last := vs[|vs| - 1];
      StrippedOfStripped(vs[..|vs| - 1]);
      assert Trimmed(last);
      assert Stripped(vs) == Stripped(vs[..|vs| - 1]) + [last];
      assert vs == vs[..|vs| - 1] + [vs[|vs| - 1]];
    }
  }

  /** Texts kept one for each key are stripped and distinct: collecting the distinct ones again changes nothing. */
  lemma KeptStayUnique(key: string -> string, values: seq<string>)
    ensures var kept := FirstOfEachKey(key, Stripped(values)); Firsts(Stripped(kept)) == kept
  {
    var vs := Stripped(values);
    var kept := FirstOfEachKey(key, vs);
    OneForEachKey(key, vs);
    FirstsAreDistinctAndOrdered(KeysOf(key, vs));
    forall v | v in kept
      ensures v in vs
    {
      KeptIsTheFirst(key, vs, v);
    }
    StrippedOfStripped(kept);
    forall i, j | 0 <= i < j < |kept|
      ensures kept[i] != kept[j]
    {
      assert KeysOf(key, kept)[i] != KeysOf(key, kept)[j];
    }
    FirstsOfDistinct(kept);
  }

  lemma DistinctStayDistinct(values: seq<string>)
    ensures Firsts(Stripped(Firsts(Stripped(values)))) == Firsts(Stripped(values))
  {
    var id: string -> string := v => v;
    var kept := FirstOfEachKey(id, Stripped(values));
    OneForEachKey(id, Stripped(values));
    IdentityKeys(id, Stripped(values));
    IdentityKeys(id, kept);
    KeptStayUnique(id, values);
  }
}
