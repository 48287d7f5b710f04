/** Filling a validation matrix: each group takes its resolvable primary cases and then as many backups as it needs. */
module CaseMatrix {
  import opened Prelude

  const TARGET: nat := 3

  datatype RunRow = RunRow(id: int, brandName: string, url: string)

  datatype Source = Primary | Backup
  datatype Candidate = Candidate(caseId: string, brandName: string, url: Option<string>)
  datatype Reason = UrlUnresolved | NoSnapshot(host: string)
  datatype Decision =
    | Selected(candidate: Candidate, source: Source, host: string, run: RunRow)
    | Unresolved(candidate: Candidate, source: Source, reason: Reason)

  datatype Group = Group(name: string, primary: seq<Candidate>, backups: seq<Candidate>)
  datatype ResolvedCase = ResolvedCase(group: string, caseId: string, brandName: string, url: string, source: Source, run: RunRow)

  // ----- the run index -----

  /** The first row with this host. */
  function FirstWith(rows: seq<RunRow>, host: string -> string, h: string, n: nat): (r: Option<RunRow>)
    requires n <= |rows|
    ensures r.Some? ==> r.value in rows[..n] && host(r.value.url) == h
    ensures r.None? ==> forall i :: 0 <= i < n ==> host(rows[i].url) != h
  {
    if n == 0 then None
    else
      var before := FirstWith(rows, host, h, n - 1);
      if before.Some? then before else if host(rows[n - 1].url) == h then Some(rows[n - 1]) else None
  }

  ghost predicate FirstRows(index: map<string, RunRow>, rows: seq<RunRow>, host: string -> string, n: nat)
    requires n <= |rows|
  {
    && "" !in index
    && forall h :: h != "" ==> (if h in index then Some(index[h]) else None) == FirstWith(rows, host, h, n)
  }

  /** _load_run_index, on the rows the query returned: every host that occurs is mapped to the first row with it. */
  method LoadRunIndex(rows: seq<RunRow>, host: string -> string) returns (index: map<string, RunRow>)
    ensures FirstRows(index, rows, host, |rows|)
  {
    index := map[];
    for i := 0 to |rows|
      invariant FirstRows(index, rows, host, i)
    {
      var h := host(rows[i].url);
      if h == "" || h in index {
        continue;
      }
      index := index[h := rows[i]];
    }
  }

  /** The query orders by descending id, so the first row with a host is its run with the highest id. */
  lemma {:induction false} FirstIsHighest(rows: seq<RunRow>, host: string -> string, h: string, n: nat)
    requires n <= |rows| && forall i, j :: 0 <= i < j < |rows| ==> rows[i].id > rows[j].id
    ensures FirstWith(rows, host, h, n).Some? ==>
            forall i :: 0 <= i < n && host(rows[i].url) == h ==> rows[i].id <= FirstWith(rows, host, h, n).value.id
  {
    if n > 0 {
      FirstIsHighest(rows, host, h, n - 1);
    }
  }

  lemma IndexHoldsHighestRuns(index: map<string, RunRow>, rows: seq<RunRow>, host: string -> string, h: string)
    requires FirstRows(index, rows, host, |rows|) && h in index
    requires forall i, j :: 0 <= i < j < |rows| ==> rows[i].id > rows[j].id
    ensures index[h] in rows && host(index[h].url) == h
    ensures forall r :: r in rows && host(r.url) == h ==> r.id <= index[h].id
  {
    assert FirstWith(rows, host, h, |rows|) == Some(index[h]);
    FirstIsHighest(rows, host, h, |rows|);
  }

  // ----- one candidate -----

  /** _resolve_candidate */
  function ResolveCandidate(c: Candidate, index: map<string, RunRow>, host: string -> string, source: Source): Decision {
    var h := if c.url.Some? then host(c.url.value) else "";
    if c.url.None? || c.url.value == "" || h == "" then Unresolved(c, source, UrlUnresolved)
    else if h !in index then Unresolved(c, source, NoSnapshot(h))
    else Selected(c, source, h, index[h])
  }

  function Decide(cs: seq<Candidate>, index: map<string, RunRow>, host: string -> string, source: Source): (ds: seq<Decision>)
    ensures |ds| == |cs| && forall i :: 0 <= i < |cs| ==> ds[i] == ResolveCandidate(cs[i], index, host, source)
  {
    seq(|cs|, i requires 0 <= i < |cs| => ResolveCandidate(cs[i], index, host, source))
  }

  // ----- which decisions count -----

  /** How many of the first n decisions selected something. */
  function Count(ds: seq<Decision>, n: nat): (c: nat)
    requires n <= |ds|
    ensures c <= n
  {
    if n == 0 then 0 else Count(ds, n - 1) + if ds[n - 1].Selected? then 1 else 0
  }

  lemma {:induction false} CountInPrefix(ds: seq<Decision>, m: nat, n: nat)
    requires m <= n <= |ds|
    ensures Count(ds, m) <= Count(ds, n)
  {
    if m < n {
      CountInPrefix(ds, m, n - 1);
    }
  }

  lemma {:induction false} CountOverBoth(a: seq<Decision>, b: seq<Decision>, n: nat)
    requires n <= |a| + |b|
    ensures Count(a + b, n) == if n <= |a| then Count(a, n) else Count(a, |a|) + Count(b, n - |a|)
  {
    if n > 0 {
      CountOverBoth(a, b, n - 1);
    }
  }

  /** Only the decisions before position n matter. */
  lemma {:induction false} CountOfPrefix(ds: seq<Decision>, longer: seq<Decision>, n: nat)
    requires n <= |ds| && ds <= longer
    ensures Count(ds, n) == Count(longer, n)
  {
    if n > 0 {
      CountOfPrefix(ds, longer, n - 1);
    }
  }

  /** How many backups are examined, from this one on. */
  function Examined(ds: seq<Decision>, need: nat, from: nat): (n: nat)
    requires from <= |ds|
    ensures from <= n <= |ds|
    decreases |ds| - from
  {
    if from == |ds| || Count(ds, from) >= need then from else Examined(ds, need, from + 1)
  }

  /** It is the shortest prefix with `need` selected ones, or all of them. */
  lemma {:induction false} ExaminedIsShortest(ds: seq<Decision>, need: nat, from: nat)
    requires from <= |ds|
    ensures forall m :: from <= m < Examined(ds, need, from) ==> Count(ds, m) < need
    ensures Examined(ds, need, from) < |ds| ==> Count(ds, Examined(ds, need, from)) >= need
    decreases |ds| - from
  {
    if from < |ds| && Count(ds, from) < need {
      ExaminedIsShortest(ds, need, from + 1);
    }
  }

  lemma ExaminedIs(ds: seq<Decision>, need: nat, n: nat)
    requires n <= |ds| && forall m :: 0 <= m < n ==> Count(ds, m) < need
    requires n < |ds| ==> Count(ds, n) >= need
    ensures Examined(ds, need, 0) == n
  {
    ExaminedIsShortest(ds, need, 0);
    var e := Examined(ds, need, 0);
    assert e < |ds| ==> Count(ds, e) >= need;
  }

  /** How many selected cases a group lacks. */
  ghost function Missing(selected: nat): nat {
    if selected < TARGET then TARGET - selected else 0
  }

  /** All primary decisions, and the shortest prefix of the backups' that fills the group. */
  ghost function Fill(primary: seq<Decision>, backups: seq<Decision>): seq<Decision> {
    primary + backups[..Examined(backups, Missing(Count(primary, |primary|)), 0)]
  }

  /** The decisions of a group. */
  ghost function Decisions(g: Group, index: map<string, RunRow>, host: string -> string): seq<Decision> {
    Fill(Decide(g.primary, index, host, Primary), Decide(g.backups, index, host, Backup))
  }

  lemma CountOfFill(primary: seq<Decision>, backups: seq<Decision>, n: nat)
    requires |primary| <= n <= |Fill(primary, backups)|
    ensures Count(Fill(primary, backups), n) == Count(primary, |primary|) + Count(backups, n - |primary|)
  {
    CountOfPrefix(Fill(primary, backups), primary + backups, n);
    CountOverBoth(primary, backups, n);
  }

  /** Every primary case is decided, backups follow in order; three cases are selected or every candidate was examined; and
      without the last backup fewer than three are. */
  ghost predicate FillsGroup(made: seq<Decision>, primary: seq<Decision>, backups: seq<Decision>) {
    && primary <= made <= primary + backups
    && (Count(made, |made|) >= 3 || made == primary + backups)
    && (made != primary ==> Count(made, |made| - 1) < 3)
  }

  /** The decisions of a group fill it, and no choice of backups would leave a smaller gap. */
  lemma FillIsGreedyAndOptimal(primary: seq<Decision>, backups: seq<Decision>)
    ensures FillsGroup(Fill(primary, backups), primary, backups)
    ensures var made, all := Fill(primary, backups), primary + backups;
            Count(made, |made|) >= TARGET || Count(made, |made|) == Count(all, |all|)
  {
    var need := Missing(Count(primary, |primary|));
    var n := Examined(backups, need, 0);
    ExaminedIsShortest(backups, need, 0);
    var made, all := Fill(primary, backups), primary + backups;
    assert n == |backups| ==> made == all;
    CountOfFill(primary, backups, |made|);
    if n > 0 {
      CountOfFill(primary, backups, |made| - 1);
    } else {
      assert made == primary;
    }
  }

  /** Only one sequence of decisions fills a group. */
  lemma FillIsUnique(a: seq<Decision>, b: seq<Decision>, primary: seq<Decision>, backups: seq<Decision>)
    requires FillsGroup(a, primary, backups) && FillsGroup(b, primary, backups) && |a| <= |b|
    ensures a == b
  {
    if |a| < |b| {
      CountOfPrefix(a, primary + backups, |a|);
      CountOfPrefix(b, primary + backups, |a|);
      CountInPrefix(b, |a|, |b| - 1);
    }
  }

  lemma DecisionsResolve(g: Group, index: map<string, RunRow>, host: string -> string, d: Decision)
    requires d in Decisions(g, index, host)
    ensures d == ResolveCandidate(d.candidate, index, host, d.source)
    ensures if d.source.Primary? then d.candidate in g.primary else d.candidate in g.backups
  {
  }

  // ----- the lists that the loops fill -----

  datatype Tally = Tally(decisions: seq<Decision>, selected: seq<Decision>, resolved: seq<ResolvedCase>, unresolved: seq<Decision>)

  ghost function CaseOf(group: string, d: Decision): ResolvedCase
    requires d.Selected?
  {
    ResolvedCase(group, d.candidate.caseId, d.candidate.brandName, if d.candidate.url.Some? then d.candidate.url.value else "",
                 d.source, d.run)
  }

  ghost function Note(group: string, t: Tally, d: Decision): Tally {
    if d.Selected? then Tally(t.decisions + [d], t.selected + [d], t.resolved + [CaseOf(group, d)], t.unresolved)
    else Tally(t.decisions + [d], t.selected, t.resolved, t.unresolved + [d])
  }

  /** The lists after the first n of these decisions. */
  ghost function Noted(group: string, t: Tally, ds: seq<Decision>, n: nat): Tally
    requires n <= |ds|
  {
    if n == 0 then t else Note(group, Noted(group, t, ds, n - 1), ds[n - 1])
  }

  lemma {:induction false} NotedBoth(group: string, t: Tally, a: seq<Decision>, b: seq<Decision>, n: nat)
    requires n <= |b|
    ensures Noted(group, t, a + b, |a| + n) == Noted(group, Noted(group, t, a, |a|), b, n)
  {
    if n > 0 {
      NotedBoth(group, t, a, b, n - 1);
    } else {
      NotedPrefix(group, t, a, a + b, |a|);
    }
  }

  lemma {:induction false} NotedPrefix(group: string, t: Tally, ds: seq<Decision>, longer: seq<Decision>, n: nat)
    requires n <= |ds| && ds <= longer
    ensures Noted(group, t, ds, n) == Noted(group, t, longer, n)
  {
    if n > 0 {
      NotedPrefix(group, t, ds, longer, n - 1);
    }
  }

  // ----- what the lists hold, list by list -----

  ghost function SelectedIn(ds: seq<Decision>, n: nat): seq<Decision>
    requires n <= |ds|
  {
    if n == 0 then [] else SelectedIn(ds, n - 1) + if ds[n - 1].Selected? then [ds[n - 1]] else []
  }

  ghost function UnresolvedIn(ds: seq<Decision>, n: nat): seq<Decision>
    requires n <= |ds|
  {
    if n == 0 then [] else UnresolvedIn(ds, n - 1) + if ds[n - 1].Selected? then [] else [ds[n - 1]]
  }

  ghost function CasesIn(group: string, ds: seq<Decision>, n: nat): seq<ResolvedCase>
    requires n <= |ds|
  {
    if n == 0 then [] else CasesIn(group, ds, n - 1) + if ds[n - 1].Selected? then [CaseOf(group, ds[n - 1])] else []
  }

  /** The lists with what the first n decisions add to each. */
  ghost function WithLists(group: string, t: Tally, ds: seq<Decision>, n: nat): Tally
    requires n <= |ds|
  {
    Tally(t.decisions + ds[..n], t.selected + SelectedIn(ds, n), t.resolved + CasesIn(group, ds, n), t.unresolved + UnresolvedIn(ds, n))
  }

  lemma OneMoreListed(group: string, t: Tally, ds: seq<Decision>, n: nat)
    requires n < |ds|
    ensures WithLists(group, t, ds, n + 1) == Note(group, WithLists(group, t, ds, n), ds[n])
  {
    assert ds[..n + 1] == ds[..n] + [ds[n]];
  }

  lemma {:induction false} NotedLists(group: string, t: Tally, ds: seq<Decision>, n: nat)
    requires n <= |ds|
    ensures Noted(group, t, ds, n) == WithLists(group, t, ds, n)
  {
    if n > 0 {
      NotedLists(group, t, ds, n - 1);
      OneMoreListed(group, t, ds, n - 1);
    }
  }

  lemma {:induction false} ListsAddUp(group: string, ds: seq<Decision>, n: nat)
    requires n <= |ds|
    ensures |SelectedIn(ds, n)| == |CasesIn(group, ds, n)| == Count(ds, n)
    ensures |SelectedIn(ds, n)| + |UnresolvedIn(ds, n)| == n
  {
    if n > 0 {
      ListsAddUp(group, ds, n - 1);
    }
  }

  /** Nothing is lost or counted twice: every decision is listed once, as selected (with its case) or as unresolved. */
  lemma {:induction false} EveryDecisionIsListed(group: string, ds: seq<Decision>, n: nat)
    requires n <= |ds|
    ensures |SelectedIn(ds, n)| == |CasesIn(group, ds, n)| == Count(ds, n)
    ensures |SelectedIn(ds, n)| + |UnresolvedIn(ds, n)| == n
    ensures forall d :: d in SelectedIn(ds, n) <==> d in ds[..n] && d.Selected?
    ensures forall d :: d in UnresolvedIn(ds, n) <==> d in ds[..n] && d.Unresolved?
  {
    if n > 0 {
      EveryDecisionIsListed(group, ds, n - 1);
      assert ds[..n] == ds[..n - 1] + [ds[n - 1]];
    }
    ListsAddUp(group, ds, n);
  }

  method DecidePrimary(g: Group, index: map<string, RunRow>, host: string -> string, start: Tally) returns (t: Tally)
    ensures t == Noted(g.name, start, Decide(g.primary, index, host, Primary), |g.primary|)
  {
    t := start;
    for i := 0 to |g.primary|
      invariant t == Noted(g.name, start, Decide(g.primary, index, host, Primary), i)
    {
      var d := ResolveCandidate(g.primary[i], index, host, Primary);
      t := t.(decisions := t.decisions + [d]);
      if d.Selected? {
        var url := if d.candidate.url.Some? then d.candidate.url.value else "";
        var made := ResolvedCase(g.name, d.candidate.caseId, d.candidate.brandName, url, d.source, d.run);
        t := t.(selected := t.selected + [d], resolved := t.resolved + [made]);
      } else {
        t := t.(unresolved := t.unresolved + [d]);
      }
    }
  }

  /** The loop over the backups, with its break. */
  method AddBackups(g: Group, index: map<string, RunRow>, host: string -> string, start: Tally, need: nat) returns (t: Tally)
    requires need > 0
    ensures var backups := Decide(g.backups, index, host, Backup);
            t == Noted(g.name, start, backups, Examined(backups, need, 0))
  {
    t := start;
    ghost var backups := Decide(g.backups, index, host, Backup);
    var needed := need;
    for i := 0 to |g.backups|
      invariant t == Noted(g.name, start, backups, i)
      invariant needed > 0 && needed == need - Count(backups, i)
      invariant forall m :: 0 <= m <= i ==> Count(backups, m) < need
    {
      var d := ResolveCandidate(g.backups[i], index, host, Backup);
      t := t.(decisions := t.decisions + [d]);
      if d.Selected? {
        var url := if d.candidate.url.Some? then d.candidate.url.value else "";
        var made := ResolvedCase(g.name, d.candidate.caseId, d.candidate.brandName, url, d.source, d.run);
        t := t.(selected := t.selected + [d], resolved := t.resolved + [made]);
        needed := needed - 1;
        if needed == 0 {
          ExaminedIs(backups, need, i + 1);
          return;
        }
      } else {
        t := t.(unresolved := t.unresolved + [d]);
      }
    }
    ExaminedIs(backups, need, |backups|);
  }

  lemma GroupInTwoParts(name: string, primary: seq<Decision>, backups: seq<Decision>, start: Tally)
    ensures Noted(name, start, Fill(primary, backups), |Fill(primary, backups)|) ==
            Noted(name, Noted(name, start, primary, |primary|),
                  backups, Examined(backups, Missing(Count(primary, |primary|)), 0))
  {
    var n := Examined(backups, Missing(Count(primary, |primary|)), 0);
    NotedBoth(name, start, primary, backups, n);
    NotedPrefix(name, start, primary + backups[..n], primary + backups, |primary| + n);
  }

  datatype GroupResult = GroupResult(primaryCount: nat, decisions: seq<Decision>, selected: seq<Decision>, gap: nat)

  ghost predicate ResultOf(r: GroupResult, g: Group, made: seq<Decision>) {
    && r.primaryCount == |g.primary| && r.decisions == made
    && r.selected == SelectedIn(made, |made|)
    && (if |r.selected| >= TARGET then r.gap == 0 else |r.selected| + r.gap == TARGET)
  }

  /** Both loops over the candidates of one group. */
  method TallyGroup(g: Group, index: map<string, RunRow>, host: string -> string, start: Tally, ghost made: seq<Decision>)
    returns (t: Tally)
    requires made == Decisions(g, index, host) && start.selected == []
    ensures t == Noted(g.name, start, made, |made|)
  {
    t := DecidePrimary(g, index, host, start);
    ghost var primary, backups := Decide(g.primary, index, host, Primary), Decide(g.backups, index, host, Backup);
    PrimarySelected(g.name, start, primary);
    var needed := if |t.selected| < TARGET then TARGET - |t.selected| else 0;
    if needed > 0 {
      t := AddBackups(g, index, host, t, needed);
    }
    GroupInTwoParts(g.name, primary, backups, start);
  }

  lemma PrimarySelected(name: string, start: Tally, primary: seq<Decision>)
    requires start.selected == []
    ensures |Noted(name, start, primary, |primary|).selected| == Count(primary, |primary|)
  {
    NotedLists(name, start, primary, |primary|);
    ListsAddUp(name, primary, |primary|);
  }

  /** One group of _resolve_case_matrix. The lists of resolved and unresolved cases are shared by all groups. */
  method ResolveGroup(g: Group, index: map<string, RunRow>, host: string -> string,
                      resolved0: seq<ResolvedCase>, unresolved0: seq<Decision>, ghost made: seq<Decision>)
    returns (result: GroupResult, resolved: seq<ResolvedCase>, unresolved: seq<Decision>)
    requires made == Decisions(g, index, host)
    ensures ResultOf(result, g, made)
    ensures resolved == resolved0 + CasesIn(g.name, made, |made|)
    ensures unresolved == unresolved0 + UnresolvedIn(made, |made|)
  {
    var start := Tally([], [], resolved0, unresolved0);
    var t := TallyGroup(g, index, host, start, made);
    NotedLists(g.name, start, made, |made|);
    var gap := if |t.selected| < TARGET then TARGET - |t.selected| else 0;
    result := GroupResult(|g.primary|, t.decisions, t.selected, gap);
    resolved, unresolved := t.resolved, t.unresolved;
    assert made[..|made|] == made;
  }

  // ----- all groups -----

  ghost function Flatten<T>(parts: seq<seq<T>>, n: nat): seq<T>
    requires n <= |parts|
  {
    if n == 0 then [] else Flatten(parts, n - 1) + parts[n - 1]
  }

  /** The decisions of every group. */
  ghost function Made(groups: seq<Group>, index: map<string, RunRow>, host: string -> string): (made: seq<seq<Decision>>)
    ensures |made| == |groups| && forall i :: 0 <= i < |groups| ==> made[i] == Decisions(groups[i], index, host)
  {
    seq(|groups|, i requires 0 <= i < |groups| => Decisions(groups[i], index, host))
  }

  ghost function CasesMade(groups: seq<Group>, made: seq<seq<Decision>>): (cases: seq<seq<ResolvedCase>>)
    requires |made| == |groups|
    ensures |cases| == |made| && forall i :: 0 <= i < |made| ==> cases[i] == CasesIn(groups[i].name, made[i], |made[i]|)
  {
    seq(|made|, i requires 0 <= i < |made| => CasesIn(groups[i].name, made[i], |made[i]|))
  }

  ghost function UnresolvedMade(made: seq<seq<Decision>>): (unresolved: seq<seq<Decision>>)
    ensures |unresolved| == |made| && forall i :: 0 <= i < |made| ==> unresolved[i] == UnresolvedIn(made[i], |made[i]|)
  {
    seq(|made|, i requires 0 <= i < |made| => UnresolvedIn(made[i], |made[i]|))
  }

  lemma {:induction false} EveryDecisionIsAccountedFor(groups: seq<Group>, made: seq<seq<Decision>>, n: nat)
    requires n <= |groups| == |made|
    ensures |Flatten(CasesMade(groups, made), n)| + |Flatten(UnresolvedMade(made), n)| == |Flatten(made, n)|
  {
    if n > 0 {
      EveryDecisionIsAccountedFor(groups, made, n - 1);
      EveryDecisionIsListed(groups[n - 1].name, made[n - 1], |made[n - 1]|);
    }
  }

  lemma EveryGroupIsFilled(groups: seq<Group>, made: seq<seq<Decision>>, index: map<string, RunRow>, host: string -> string)
    requires made == Made(groups, index, host)
    ensures forall i :: 0 <= i < |groups| ==>
              FillsGroup(made[i], Decide(groups[i].primary, index, host, Primary), Decide(groups[i].backups, index, host, Backup))
  {
    forall i | 0 <= i < |groups|
      ensures FillsGroup(made[i], Decide(groups[i].primary, index, host, Primary), Decide(groups[i].backups, index, host, Backup))
    {
      FillIsGreedyAndOptimal(Decide(groups[i].primary, index, host, Primary), Decide(groups[i].backups, index, host, Backup));
    }
  }

  ghost predicate ResultsOf(results: seq<GroupResult>, groups: seq<Group>, made: seq<seq<Decision>>)
    requires |made| == |groups|
  {
    |results| <= |groups| && forall j :: 0 <= j < |results| ==> ResultOf(results[j], groups[j], made[j])
  }

  /** What the loop over the groups has done after n of them. */
  ghost predicate Resolved(groups: seq<Group>, made: seq<seq<Decision>>, n: nat,
                           results: seq<GroupResult>, resolved: seq<ResolvedCase>, unresolved: seq<Decision>)
    requires |made| == |groups|
  {
    && |results| == n <= |groups| && ResultsOf(results, groups, made)
    && resolved == Flatten(CasesMade(groups, made), n) && unresolved == Flatten(UnresolvedMade(made), n)
  }

  lemma OneMoreGroup(groups: seq<Group>, made: seq<seq<Decision>>, n: nat, results: seq<GroupResult>, resolved: seq<ResolvedCase>,
                     unresolved: seq<Decision>, result: GroupResult)
    requires n < |groups| == |made| && Resolved(groups, made, n, results, resolved, unresolved)
    requires ResultOf(result, groups[n], made[n])
    ensures Resolved(groups, made, n + 1, results + [result], resolved + CasesIn(groups[n].name, made[n], |made[n]|),
                     unresolved + UnresolvedIn(made[n], |made[n]|))
  {
  }

  lemma NoGroup(groups: seq<Group>, made: seq<seq<Decision>>)
    requires |made| == |groups|
    ensures Resolved(groups, made, 0, [], [], [])
  {
  }

  /** The loop over the groups. */
  method ResolveGroups(groups: seq<Group>, index: map<string, RunRow>, host: string -> string, ghost made: seq<seq<Decision>>)
    returns (results: seq<GroupResult>, resolved: seq<ResolvedCase>, unresolved: seq<Decision>)
    requires made == Made(groups, index, host)
    ensures Resolved(groups, made, |groups|, results, resolved, unresolved)
  {
    results, resolved, unresolved := [], [], [];
    NoGroup(groups, made);
    for i := 0 to |groups|
      invariant Resolved(groups, made, i, results, resolved, unresolved)
    {
      var result, resolved', unresolved' := ResolveGroup(groups[i], index, host, resolved, unresolved, made[i]);
      OneMoreGroup(groups, made, i, results, resolved, unresolved, result);
      results, resolved, unresolved := results + [result], resolved', unresolved';
    }
  }

  /** _resolve_case_matrix: selected and unresolved cases account for every decision of every group. */
  method ResolveCaseMatrix(groups: seq<Group>, index: map<string, RunRow>, host: string -> string)
    returns (results: seq<GroupResult>, resolved: seq<ResolvedCase>, unresolved: seq<Decision>)
    ensures var made := Made(groups, index, host);
      && |results| == |groups| && ResultsOf(results, groups, made)
      && resolved == Flatten(CasesMade(groups, made), |groups|) && unresolved == Flatten(UnresolvedMade(made), |groups|)
      && |resolved| + |unresolved| == |Flatten(made, |groups|)|
      && forall i :: 0 <= i < |groups| ==>
           FillsGroup(made[i], Decide(groups[i].primary, index, host, Primary), Decide(groups[i].backups, index, host, Backup))
  {
    ghost var made := Made(groups, index, host);
    results, resolved, unresolved := ResolveGroups(groups, index, host, made);
    EveryDecisionIsAccountedFor(groups, made, |groups|);
    EveryGroupIsFilled(groups, made, index, host);
  }

  /** A candidate is selected exactly if its URL has a host that some run has, and otherwise the reason says which is missing. */
  lemma SelectedIffSomeRunHasTheHost(c: Candidate, rows: seq<RunRow>, index: map<string, RunRow>, host: string -> string, source: Source)
    requires FirstRows(index, rows, host, |rows|)
    ensures var d := ResolveCandidate(c, index, host, source);
      var named := c.url.Some? && c.url.value != "" && host(c.url.value) != "";
      && d.candidate == c && d.source == source
      && (d.Selected? <==> named && exists r :: r in rows && host(r.url) == host(c.url.value))
      && (d.Selected? ==> d.host == host(c.url.value) && d.host in index && d.run == index[d.host])
      && (d.Unresolved? && !named ==> d.reason == UrlUnresolved)
      && (d.Unresolved? && named ==> d.reason == NoSnapshot(host(c.url.value)))
  {
  }

  /** From the query to the matrix: a selected case uses the latest run of its URL's host. */
  lemma SelectedCasesUseTheLatestRun(g: Group, rows: seq<RunRow>, index: map<string, RunRow>, host: string -> string, d: Decision)
    requires FirstRows(index, rows, host, |rows|) && forall i, j :: 0 <= i < j < |rows| ==> rows[i].id > rows[j].id
    requires d in Decisions(g, index, host) && d.Selected?
    ensures d.candidate.url.Some? && host(d.candidate.url.value) == host(d.run.url) && d.run in rows
    ensures forall r :: r in rows && host(r.url) == host(d.candidate.url.value) ==> r.id <= d.run.id
  {
    DecisionsResolve(g, index, host, d);
    IndexHoldsHighestRuns(index, rows, host, host(d.candidate.url.value));
  }
}
