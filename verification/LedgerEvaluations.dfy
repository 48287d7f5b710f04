/** The component evaluations of a scan series: a fold over checkpoint and snapshot rows that keeps, for a
    component evaluated more than once in a scan, only the evidence that its prompts showed. */
module LedgerEvaluations {
  import opened Collections
  import opened FirstOccurrence
  import opened Prelude

  // Evidence items are only compared for equality.
  type Item = string

  // A component result is a mapping, with an evidence list that may be missing, or it is no mapping at all.
  datatype Result = NoMapping | Mapping(evidence: Option<seq<Item>>, rest: string)

  datatype Evaluation = Evaluation(key: string, status: string)
  datatype CheckpointRow = CheckpointRow(scan: string, evaluations: seq<Evaluation>, candidate: string, result: Result)
  datatype SnapshotRow = SnapshotRow(scan: string, evaluations: seq<Evaluation>, provenance: map<string, string>,
                                     results: map<string, Result>, flowCandidate: string)

  datatype Entry = Entry(key: string, status: string, candidate: string, result: Result)

  type Components = Dict<Entry>
  type ByScan = Dict<Components>

  const NONE: Components := Dict([], map[])

  // ----- _put_evaluation -----

  function Evidence(r: Result): seq<Item> {
    if r.Mapping? && r.evidence.Some? then r.evidence.value else []
  }

  /** The new result, its evidence cut down to what the previous one kept if both are mappings. */
  ghost function Combine(previous: Result, r: Result): Result {
    if previous.Mapping? && r.Mapping? then r.(evidence := Some(Filter(Evidence(r), x => x in Evidence(previous)))) else r
  }

  ghost function PutEvaluation(byScan: ByScan, scan: string, e: Entry): ByScan {
    var components := byScan.GetOr(scan, NONE);
    var result := if e.key in components.values then Combine(components.values[e.key].result, e.result) else e.result;
    byScan.Set(scan, components.Set(e.key, e.(result := result)))
  }

  /** _put_evaluation */
  method PutEntry(byScan: ByScan, scan: string, evaluation: Evaluation, candidate: string, result: Result) returns (r: ByScan)
    ensures r == PutEvaluation(byScan, scan, Entry(evaluation.key, evaluation.status, candidate, result))
  {
    var components := if scan in byScan.values then byScan.values[scan] else NONE;
    var kept := result;
    if evaluation.key in components.values {
      var previous := components.values[evaluation.key].result;
      if previous.Mapping? && result.Mapping? {
        var shown := Evidence(previous);
        kept := Mapping(Some(Filter(Evidence(result), x => x in shown)), result.rest);
      }
    }
    r := byScan.Set(scan, components.Set(evaluation.key, Entry(evaluation.key, evaluation.status, candidate, kept)));
  }

  // ----- the sequence of puts -----

  datatype Put = Put(scan: string, entry: Entry)

  ghost function CheckpointPuts(row: CheckpointRow, n: nat): seq<Put>
    requires n <= |row.evaluations|
  {
    if n == 0 then []
    else
      var e := row.evaluations[n - 1];
      CheckpointPuts(row, n - 1) + [Put(row.scan, Entry(e.key, e.status, row.candidate, row.result))]
  }

  ghost function SnapshotPuts(row: SnapshotRow, n: nat): seq<Put>
    requires n <= |row.evaluations|
  {
    if n == 0 then []
    else
      var e := row.evaluations[n - 1];
      var candidate := if e.key in row.provenance && row.provenance[e.key] != "" then row.provenance[e.key] else row.flowCandidate;
      var result := if e.key in row.results then row.results[e.key] else NoMapping;
      SnapshotPuts(row, n - 1) + [Put(row.scan, Entry(e.key, e.status, candidate, result))]
  }

  ghost function AllCheckpointPuts(rows: seq<CheckpointRow>, n: nat): seq<Put>
    requires n <= |rows|
  {
    if n == 0 then [] else AllCheckpointPuts(rows, n - 1) + CheckpointPuts(rows[n - 1], |rows[n - 1].evaluations|)
  }

  ghost function AllSnapshotPuts(rows: seq<SnapshotRow>, n: nat): seq<Put>
    requires n <= |rows|
  {
    if n == 0 then [] else AllSnapshotPuts(rows, n - 1) + SnapshotPuts(rows[n - 1], |rows[n - 1].evaluations|)
  }

  /** All evaluations in the order in which they are put: checkpoints first, then snapshots. */
  ghost function Puts(checkpoints: seq<CheckpointRow>, snapshots: seq<SnapshotRow>): seq<Put> {
    AllCheckpointPuts(checkpoints, |checkpoints|) + AllSnapshotPuts(snapshots, |snapshots|)
  }

  /** The dictionary after these evaluations were put into it one after the other. */
  ghost function After(byScan: ByScan, puts: seq<Put>): ByScan {
    if puts == [] then byScan
    else PutEvaluation(After(byScan, puts[..|puts| - 1]), puts[|puts| - 1].scan, puts[|puts| - 1].entry)
  }

  const EMPTY: ByScan := Dict([], map[])

  lemma AfterOneMore(byScan: ByScan, puts: seq<Put>, p: Put)
    ensures After(byScan, puts + [p]) == PutEvaluation(After(byScan, puts), p.scan, p.entry)
  {
  }

  lemma {:induction false} AfterConcatenation(byScan: ByScan, a: seq<Put>, b: seq<Put>)
    ensures After(byScan, a + b) == After(After(byScan, a), b)
  {
    if b == [] {
      assert a + b == a;
    } else {
      var front, last := b[..|b| - 1], b[|b| - 1];
      assert a + b == (a + front) + [last] && b == front + [last];
      AfterConcatenation(byScan, a, front);
      AfterOneMore(byScan, a + front, last);
      AfterOneMore(After(byScan, a), front, last);
    }
  }

  /** The inner loop over the evaluations of one checkpoint row. */
  method PutCheckpoint(byScan: ByScan, row: CheckpointRow) returns (r: ByScan)
    ensures r == After(byScan, CheckpointPuts(row, |row.evaluations|))
  {
    r := byScan;
    for j := 0 to |row.evaluations|
      invariant r == After(byScan, CheckpointPuts(row, j))
    {
      var e := row.evaluations[j];
      AfterOneMore(byScan, CheckpointPuts(row, j), Put(row.scan, Entry(e.key, e.status, row.candidate, row.result)));
      r := PutEntry(r, row.scan, e, row.candidate, row.result);
    }
  }

  /** The inner loop over the evaluations of one snapshot row. */
  method PutSnapshot(byScan: ByScan, row: SnapshotRow) returns (r: ByScan)
    ensures r == After(byScan, SnapshotPuts(row, |row.evaluations|))
  {
    r := byScan;
    for j := 0 to |row.evaluations|
      invariant r == After(byScan, SnapshotPuts(row, j))
    {
      var e := row.evaluations[j];
      var candidate := if e.key in row.provenance && row.provenance[e.key] != "" then row.provenance[e.key] else row.flowCandidate;
      var result := if e.key in row.results then row.results[e.key] else NoMapping;
      AfterOneMore(byScan, SnapshotPuts(row, j), Put(row.scan, Entry(e.key, e.status, candidate, result)));
      r := PutEntry(r, row.scan, e, candidate, result);
    }
  }

  // ----- what the dictionary holds for one component of one scan -----

  /** The entries put for one component of one scan, in order. */
  ghost function EntriesFor(puts: seq<Put>, scan: string, key: string): seq<Entry> {
    if puts == [] then []
    else
      var front, last := EntriesFor(puts[..|puts| - 1], scan, key), puts[|puts| - 1];
      if last.scan == scan && last.entry.key == key then front + [last.entry] else front
  }

  function ResultsOf(entries: seq<Entry>): (rs: seq<Result>)
    ensures |rs| == |entries| && forall i :: 0 <= i < |rs| ==> rs[i] == entries[i].result
  {
    seq(|entries|, i requires 0 <= i < |entries| => entries[i].result)
  }

  /** The result kept after these results came in one after the other. */
  ghost function Kept(rs: seq<Result>): Result
    requires rs != []
  {
    if |rs| == 1 then rs[0] else Combine(Kept(rs[..|rs| - 1]), rs[|rs| - 1])
  }

  ghost predicate HoldsEntry(byScan: ByScan, scan: string, key: string, entries: seq<Entry>) {
    var components := byScan.GetOr(scan, NONE);
    if entries == [] then key !in components.values
    else
      && scan in byScan.values && key in components.values
      && components.values[key] == entries[|entries| - 1].(result := Kept(ResultsOf(entries)))
  }

  /** For every scan and component the entry is the last one put, with the results combined in order. */
  lemma {:induction false} AfterHolds(puts: seq<Put>, scan: string, key: string)
    ensures HoldsEntry(After(EMPTY, puts), scan, key, EntriesFor(puts, scan, key))
  {
    if puts != [] {
      var front, last := puts[..|puts| - 1], puts[|puts| - 1];
      AfterHolds(front, scan, key);
      if last.scan == scan && last.entry.key == key {
        var entries := EntriesFor(front, scan, key);
        if entries != [] {
          assert ResultsOf(entries + [last.entry])[..|entries|] == ResultsOf(entries);
        }
      }
    }
  }

  ghost function KeysFor(puts: seq<Put>, scan: string): seq<string> {
    if puts == [] then []
    else
      var front, last := KeysFor(puts[..|puts| - 1], scan), puts[|puts| - 1];
      if last.scan == scan then front + [last.entry.key] else front
  }

  /** Components are listed in the order in which they were first put. */
  lemma {:induction false} ComponentsInFirstOrder(puts: seq<Put>, scan: string)
    ensures After(EMPTY, puts).GetOr(scan, NONE).keys == Firsts(KeysFor(puts, scan))
    ensures forall k :: k in After(EMPTY, puts).GetOr(scan, NONE).values <==> k in KeysFor(puts, scan)
  {
    if puts != [] {
      var front, last := puts[..|puts| - 1], puts[|puts| - 1];
      ComponentsInFirstOrder(front, scan);
      if last.scan == scan {
        var keys := KeysFor(front, scan);
        assert (keys + [last.entry.key])[..|keys|] == keys;
      }
    }
  }

  // ----- the kept evidence is an intersection -----

  /** Where the unbroken run of mappings at the end begins. */
  function RunStart(rs: seq<Result>): (m: nat)
    ensures m <= |rs| && (forall i :: m <= i < |rs| ==> rs[i].Mapping?) && (m > 0 ==> rs[m - 1].NoMapping?)
  {
    if rs == [] || rs[|rs| - 1].NoMapping? then |rs| else RunStart(rs[..|rs| - 1])
  }

  predicate ShownBetween(rs: seq<Result>, lo: nat, hi: nat, x: Item)
    requires hi <= |rs|
  {
    forall i | lo <= i < hi :: x in Evidence(rs[i])
  }

  /** The kept evidence is the last result's list, in its order, cut down to the items that every
      earlier result of the unbroken run of mappings showed. */
  lemma {:induction false} KeptIsFilteredLast(rs: seq<Result>)
    requires rs != []
    ensures Kept(rs).Mapping? <==> rs[|rs| - 1].Mapping?
    ensures Evidence(Kept(rs)) == Filter(Evidence(rs[|rs| - 1]), x => ShownBetween(rs, RunStart(rs), |rs| - 1, x))
  {
    var n := |rs|;
    if n == 1 {
      FilterAll(Evidence(rs[0]), x => ShownBetween(rs, RunStart(rs), 0, x));
    } else {
      var front, last := rs[..n - 1], rs[n - 1];
      assert rs == front + [last];
      KeptIsFilteredLast(front);
      KeptOneMore(rs, front, Kept(front), last);
      assert Kept(rs) == Combine(Kept(front), last);
    }
  }

  lemma RunGoesOn(front: seq<Result>, last: Result)
    requires front != []
    ensures RunStart(front + [last]) ==
            if last.NoMapping? then |front| + 1 else if front[|front| - 1].NoMapping? then |front| else RunStart(front)
  {
  }

  lemma KeptOneMore(rs: seq<Result>, front: seq<Result>, kept: Result, last: Result)
    requires rs == front + [last] && front != [] && (kept.Mapping? <==> front[|front| - 1].Mapping?)
    requires Evidence(kept) == Filter(Evidence(front[|front| - 1]), x => ShownBetween(front, RunStart(front), |front| - 1, x))
    ensures Combine(kept, last).Mapping? <==> last.Mapping?
    ensures Evidence(Combine(kept, last)) == Filter(Evidence(last), x => ShownBetween(rs, RunStart(rs), |rs| - 1, x))
  {
    var n := |front|;
    RunGoesOn(front, last);
    if kept.Mapping? && last.Mapping? {
      forall x
        ensures x in Evidence(kept) <==> ShownBetween(rs, RunStart(rs), n, x)
      {
        ShownByAll(front, last, RunStart(front), x);
      }
      FilterAgrees(Evidence(last), x => x in Evidence(kept), x => ShownBetween(rs, RunStart(rs), |rs| - 1, x));
    } else {
      FilterAll(Evidence(last), x => ShownBetween(rs, RunStart(rs), |rs| - 1, x));
    }
  }

  lemma ShownByAll(front: seq<Result>, last: Result, m: nat, x: Item)
    requires m < |front|
    ensures ShownBetween(front + [last], m, |front|, x) <==>
            ShownBetween(front, m, |front| - 1, x) && x in Evidence(front[|front| - 1])
  {
    var rs := front + [last];
    assert rs[|front| - 1] == front[|front| - 1];
    assert forall i :: m <= i < |front| - 1 ==> rs[i] == front[i];
  }

  /** If every result is a mapping, the kept evidence is, as a set, the intersection over all prompts. */
  lemma AllMappingsKeepTheIntersection(rs: seq<Result>)
    requires rs != [] && forall i :: 0 <= i < |rs| ==> rs[i].Mapping?
    ensures Evidence(Kept(rs)) == Filter(Evidence(rs[|rs| - 1]), x => ShownBetween(rs, 0, |rs| - 1, x))
    ensures forall x :: x in Evidence(Kept(rs)) <==> ShownBetween(rs, 0, |rs|, x)
  {
    KeptIsFilteredLast(rs);
    assert RunStart(rs) == 0;
    FilterAgrees(Evidence(rs[|rs| - 1]), x => ShownBetween(rs, RunStart(rs), |rs| - 1, x), x => ShownBetween(rs, 0, |rs| - 1, x));
  }

  // ----- the whole scan -----

  /** Everything but the evidence is the last result's, and a result that follows no mapping is kept as it is. */
  ghost predicate IsTheLast(kept: Result, rs: seq<Result>)
    requires rs != []
  {
    var last, start := rs[|rs| - 1], RunStart(rs);
    if start + 1 >= |rs| then kept == last
    else kept.Mapping? && kept.evidence.Some? && kept == last.(evidence := kept.evidence)
  }

  /** The last result, with its evidence cut down to what the unbroken run of mappings showed; if all results are mappings,
      to what all of them showed. */
  ghost predicate IsCommonEvidence(kept: Result, rs: seq<Result>)
    requires rs != []
  {
    && IsTheLast(kept, rs)
    && Evidence(kept) == Filter(Evidence(rs[|rs| - 1]), x => ShownBetween(rs, RunStart(rs), |rs| - 1, x))
    && ((forall i :: 0 <= i < |rs| ==> rs[i].Mapping?) ==> forall x :: x in Evidence(kept) <==> ShownBetween(rs, 0, |rs|, x))
  }

  lemma CombineKeepsTheLast(front: seq<Result>, kept: Result, last: Result)
    requires front != [] && (kept.Mapping? <==> front[|front| - 1].Mapping?)
    ensures IsTheLast(Combine(kept, last), front + [last])
  {
    RunGoesOn(front, last);
  }

  lemma KeptIsTheLast(rs: seq<Result>)
    requires rs != []
    ensures IsTheLast(Kept(rs), rs)
  {
    if |rs| > 1 {
      var front, last := rs[..|rs| - 1], rs[|rs| - 1];
      assert rs == front + [last];
      KeptIsFilteredLast(front);
      CombineKeepsTheLast(front, Kept(front), last);
    }
  }

  lemma KeptIsCommonEvidence(rs: seq<Result>)
    requires rs != []
    ensures IsCommonEvidence(Kept(rs), rs)
  {
    KeptIsTheLast(rs);
    KeptIsFilteredLast(rs);
    if forall i :: 0 <= i < |rs| ==> rs[i].Mapping? {
      AllMappingsKeepTheIntersection(rs);
    }
  }

  /** The component has an entry exactly if one was put. It is the last one put, with the common evidence. */
  ghost predicate HoldsCommonEvidence(byScan: ByScan, scan: string, key: string, entries: seq<Entry>) {
    var components := byScan.GetOr(scan, NONE).values;
    if entries == [] then key !in components
    else
      && key in components && components[key] == entries[|entries| - 1].(result := components[key].result)
      && IsCommonEvidence(components[key].result, ResultsOf(entries))
  }

  lemma EvidenceOfEntry(byScan: ByScan, scan: string, key: string, entries: seq<Entry>)
    requires HoldsEntry(byScan, scan, key, entries)
    ensures HoldsCommonEvidence(byScan, scan, key, entries)
  {
    if entries != [] {
      KeptIsCommonEvidence(ResultsOf(entries));
    }
  }

  lemma EveryComponentHolds(puts: seq<Put>)
    ensures forall scan, key :: HoldsCommonEvidence(After(EMPTY, puts), scan, key, EntriesFor(puts, scan, key))
  {
    forall scan, key
      ensures HoldsCommonEvidence(After(EMPTY, puts), scan, key, EntriesFor(puts, scan, key))
    {
      AfterHolds(puts, scan, key);
      EvidenceOfEntry(After(EMPTY, puts), scan, key, EntriesFor(puts, scan, key));
    }
  }

  /** _scan_evaluations: one dictionary, filled from the checkpoints and then from the snapshots. */
  method ScanEvaluations(checkpoints: seq<CheckpointRow>, snapshots: seq<SnapshotRow>) returns (byScan: ByScan)
    ensures byScan == After(EMPTY, Puts(checkpoints, snapshots))
    ensures forall scan, key :: HoldsCommonEvidence(byScan, scan, key, EntriesFor(Puts(checkpoints, snapshots), scan, key))
  {
    byScan := EMPTY;
    for i := 0 to |checkpoints|
      invariant byScan == After(EMPTY, AllCheckpointPuts(checkpoints, i))
    {
      AfterConcatenation(EMPTY, AllCheckpointPuts(checkpoints, i), CheckpointPuts(checkpoints[i], |checkpoints[i].evaluations|));
      byScan := PutCheckpoint(byScan, checkpoints[i]);
    }
    ghost var first := byScan;
    for i := 0 to |snapshots|
      invariant byScan == After(first, AllSnapshotPuts(snapshots, i))
    {
      AfterConcatenation(first, AllSnapshotPuts(snapshots, i), SnapshotPuts(snapshots[i], |snapshots[i].evaluations|));
      byScan := PutSnapshot(byScan, snapshots[i]);
    }
    AfterConcatenation(EMPTY, AllCheckpointPuts(checkpoints, |checkpoints|), AllSnapshotPuts(snapshots, |snapshots|));
    EveryComponentHolds(Puts(checkpoints, snapshots));
  }

  // ----- the documented promise, and exactly when it is kept -----

  /** "Keeps only the evidence all of those prompts showed": what is kept was shown by every mapping. */
  ghost predicate KeepsOnlyCommonEvidence(rs: seq<Result>)
    requires rs != []
  {
    forall x, i :: x in Evidence(Kept(rs)) && 0 <= i < |rs| && rs[i].Mapping? ==> x in Evidence(rs[i])
  }

  predicate Follows(rs: seq<Result>, shape: seq<bool>) {
    |rs| == |shape| && forall i | 0 <= i < |rs| :: rs[i].Mapping? == shape[i]
  }

  /** The last result is a mapping, and an earlier mapping is separated from it by something else. */
  ghost predicate Interrupted(shape: seq<bool>) {
    shape != [] && shape[|shape| - 1] && exists i, j :: 0 <= i < j < |shape| && shape[i] && !shape[j]
  }

  lemma KeptIsShownInTheRun(rs: seq<Result>, x: Item)
    requires rs != [] && x in Evidence(Kept(rs))
    ensures rs[|rs| - 1].Mapping? && x in Evidence(rs[|rs| - 1]) && ShownBetween(rs, RunStart(rs), |rs| - 1, x)
  {
    KeptIsFilteredLast(rs);
  }

  lemma MappingsAreInTheRun(rs: seq<Result>, shape: seq<bool>, m: nat, i: nat)
    requires rs != [] && Follows(rs, shape) && !Interrupted(shape)
    requires m <= |rs| && (m > 0 ==> rs[m - 1].NoMapping?)
    requires rs[|rs| - 1].Mapping? && i < |rs| && rs[i].Mapping?
    ensures m <= i
  {
  }

  lemma UninterruptedKeepsThePromise(rs: seq<Result>, shape: seq<bool>)
    requires rs != [] && Follows(rs, shape) && !Interrupted(shape)
    ensures KeepsOnlyCommonEvidence(rs)
  {
    forall x, i | x in Evidence(Kept(rs)) && 0 <= i < |rs| && rs[i].Mapping?
      ensures x in Evidence(rs[i])
    {
      KeptIsShownInTheRun(rs, x);
      MappingsAreInTheRun(rs, shape, RunStart(rs), i);
    }
  }

  /** The results of this shape whose mappings before position j show nothing and whose later ones show one item. */
  function Witness(shape: seq<bool>, j: nat): (rs: seq<Result>)
    ensures |rs| == |shape| && Follows(rs, shape)
  {
    seq(|shape|, i requires 0 <= i < |shape| =>
      if !shape[i] then NoMapping else if i < j then Mapping(Some([]), "") else Mapping(Some(["x"]), ""))
  }

  lemma WitnessKeepsItsItem(shape: seq<bool>, j: nat)
    requires j < |shape| && !shape[j] && shape[|shape| - 1]
    ensures "x" in Evidence(Kept(Witness(shape, j)))
  {
    var rs := Witness(shape, j);
    KeptIsFilteredLast(rs);
    assert RunStart(rs) > j by {
      assert rs[j].NoMapping?;
    }
    assert forall k :: RunStart(rs) <= k < |rs| ==> Evidence(rs[k]) == ["x"];
  }

  lemma InterruptedBreaksThePromise(shape: seq<bool>) returns (rs: seq<Result>)
    requires Interrupted(shape)
    ensures rs != [] && Follows(rs, shape) && !KeepsOnlyCommonEvidence(rs)
  {
    var i, j :| 0 <= i < j < |shape| && shape[i] && !shape[j];
    rs := Witness(shape, j);
    WitnessKeepsItsItem(shape, j);
    assert rs[i] == Mapping(Some([]), "") && "x" !in Evidence(rs[i]);
  }

  /** The promise holds of all results of a shape if and only if the shape is not interrupted. */
  lemma PromiseHoldsIffUninterrupted(shape: seq<bool>)
    requires shape != []
    ensures (forall rs :: Follows(rs, shape) ==> KeepsOnlyCommonEvidence(rs)) <==> !Interrupted(shape)
  {
    if Interrupted(shape) {
      var rs := InterruptedBreaksThePromise(shape);
    } else {
      forall rs | Follows(rs, shape)
        ensures KeepsOnlyCommonEvidence(rs)
      {
        UninterruptedKeepsThePromise(rs, shape);
      }
    }
  }
}
