/** The identifiers that tie a review record to a work order: the text of an intervention type and a run id. */
module DecisionIds {

  // The run id of a packet's run; a missing one is printed as None.
  datatype RunId = NoRun | Run(id: int)

  function Digit(d: nat): (c: char)
    requires d < 10
    ensures '0' <= c <= '9'
  {
    '0' + d as char
  }

  function NatText(n: nat): (s: string)
    ensures s != [] && forall i :: 0 <= i < |s| ==> '0' <= s[i] <= '9'
  {
    if n < 10 then [Digit(n)] else NatText(n / 10) + [Digit(n % 10)]
  }

  function IntText(n: int): string {
    if n < 0 then "-" + NatText(-n) else NatText(n)
  }

  function RunText(r: RunId): string {
    match r
    case NoRun => "None"
    case Run(id) => IntText(id)
  }

  function Replace(s: string, from: char, to: char): (r: string)
    ensures |r| == |s| && forall i :: 0 <= i < |s| ==> r[i] == (if s[i] == from then to else s[i])
  {
    seq(|s|, i requires 0 <= i < |s| => if s[i] == from then to else s[i])
  }

  function Sanitized(s: string): string {
    Replace(Replace(s, ':', '_'), '/', '_')
  }

  function WorkOrderId(kind: string, run: RunId): string {
    "workorder:" + kind + ":" + RunText(run)
  }

  function RecordId(kind: string, run: RunId): string {
    Sanitized(kind + "_" + RunText(run))
  }

  // ----- texts of run ids -----

  lemma {:induction false} NatTextIsInjective(m: nat, n: nat)
    requires NatText(m) == NatText(n)
    ensures m == n
  {
    if m >= 10 && n >= 10 {
      var a, b := NatText(m / 10), NatText(n / 10);
      assert NatText(m) == a + [Digit(m % 10)] && NatText(n) == b + [Digit(n % 10)];
      assert |a| == |b|;
      assert a == NatText(m)[..|a|] && b == NatText(n)[..|b|];
      NatTextIsInjective(m / 10, n / 10);
      assert Digit(m % 10) == NatText(m)[|a|] == NatText(n)[|b|] == Digit(n % 10);
    }
  }

  lemma IntTextIsInjective(m: int, n: int)
    requires IntText(m) == IntText(n)
    ensures m == n
  {
    assert (m < 0) == (IntText(m)[0] == '-');
    assert (n < 0) == (IntText(n)[0] == '-');
    if m < 0 {
      assert NatText(-m) == IntText(m)[1..] && NatText(-n) == IntText(n)[1..];
      NatTextIsInjective(-m, -n);
    } else {
      NatTextIsInjective(m, n);
    }
  }

  lemma RunTextIsInjective(a: RunId, b: RunId)
    requires RunText(a) == RunText(b)
    ensures a == b
  {
    assert a.NoRun? == (RunText(a)[0] == 'N');
    assert b.NoRun? == (RunText(b)[0] == 'N');
    if a.Run? {
      IntTextIsInjective(a.id, b.id);
    }
  }

  lemma RunTextIsPlain(r: RunId)
    ensures ':' !in RunText(r) && '/' !in RunText(r) && '_' !in RunText(r)
  {
  }

  // ----- ids -----

  lemma SeparatorNotLater(a: string, x: string, b: string, y: string, c: char)
    requires c !in x && a + [c] + x == b + [c] + y
    ensures |b| <= |a|
  {
    var s := a + [c] + x;
    assert s[|b|] == c by {
      assert (b + [c] + y)[|b|] == c;
    }
    assert forall i :: |a| < i < |s| ==> s[i] == x[i - |a| - 1];
  }

  /** What stands before and after the last separator is determined by the whole. */
  lemma LastSeparator(a: string, x: string, b: string, y: string, c: char)
    requires c !in x && c !in y && a + [c] + x == b + [c] + y
    ensures a == b && x == y
  {
    SeparatorNotLater(a, x, b, y, c);
    SeparatorNotLater(b, y, a, x, c);
    var s := a + [c] + x;
    assert a == s[..|a|] && x == s[|a| + 1..];
    assert b == s[..|b|] && y == s[|b| + 1..];
  }

  /** A work-order id determines the type and the run, whatever characters the type contains. */
  lemma WorkOrderIdsAreDistinct(k1: string, r1: RunId, k2: string, r2: RunId)
    ensures WorkOrderId(k1, r1) == WorkOrderId(k2, r2) <==> k1 == k2 && r1 == r2
  {
    if WorkOrderId(k1, r1) == WorkOrderId(k2, r2) {
      RunTextIsPlain(r1);
      RunTextIsPlain(r2);
      var p := "workorder:";
      LastSeparator(p + k1, RunText(r1), p + k2, RunText(r2), ':');
      assert (p + k1)[|p|..] == k1 && (p + k2)[|p|..] == k2;
      RunTextIsInjective(r1, r2);
    }
  }

  lemma RecordIdParts(kind: string, run: RunId)
    ensures RecordId(kind, run) == Sanitized(kind) + "_" + RunText(run)
  {
  }

  /** Record ids collide exactly for equal runs of types that differ only in the replaced characters. */
  lemma RecordIdsCollideIff(k1: string, r1: RunId, k2: string, r2: RunId)
    ensures RecordId(k1, r1) == RecordId(k2, r2) <==> Sanitized(k1) == Sanitized(k2) && r1 == r2
  {
    RecordIdParts(k1, r1);
    RecordIdParts(k2, r2);
    if RecordId(k1, r1) == RecordId(k2, r2) {
      RunTextIsPlain(r1);
      RunTextIsPlain(r2);
      LastSeparator(Sanitized(k1), RunText(r1), Sanitized(k2), RunText(r2), '_');
      RunTextIsInjective(r1, r2);
    }
  }

  predicate Plain(kind: string) {
    ':' !in kind && '/' !in kind
  }

  lemma PlainIsKept(kind: string)
    ensures Sanitized(kind) == kind <==> Plain(kind)
  {
  }

  /** For types free of colon and slash, distinct pairs have distinct record ids. */
  lemma RecordIdsAreDistinct(k1: string, r1: RunId, k2: string, r2: RunId)
    requires Plain(k1) && Plain(k2)
    ensures RecordId(k1, r1) == RecordId(k2, r2) <==> k1 == k2 && r1 == r2
  {
    RecordIdsCollideIff(k1, r1, k2, r2);
    PlainIsKept(k1);
    PlainIsKept(k2);
  }

  /** Without that condition they need not be: two records that would share one file. */
  lemma RecordIdsCanCollide()
    ensures RecordId("a:b", Run(7)) == RecordId("a_b", Run(7)) && WorkOrderId("a:b", Run(7)) != WorkOrderId("a_b", Run(7))
  {
    RecordIdsCollideIff("a:b", Run(7), "a_b", Run(7));
    WorkOrderIdsAreDistinct("a:b", Run(7), "a_b", Run(7));
    assert Sanitized("a:b") == "a_b" == Sanitized("a_b");
    assert "a:b"[1] != "a_b"[1];
  }
}
