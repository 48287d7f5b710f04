/** Completing a pending review record: the decision is checked and the required fields are filled in. */
module DecisionRecords {
  import opened Collections
  import opened DecisionIds
  import opened DistinctTexts
  import opened FirstOccurrence
  import opened Prelude

  // `fields` gives the text of the record's own fields by name, `nested` that of the fields of the record inside it.
  datatype PendingRecord = PendingRecord(
    recordId: string, workOrderId: string, allowed: seq<string>, required: seq<string>, requiresRecompute: bool,
    reviewUrls: seq<string>, affectedFields: seq<string>, cardRun: RunId, nestedRun: RunId,
    fields: map<string, string>, nested: map<string, string>)

  datatype Value = Text(s: string) | Flag(b: bool) | RunValue(run: RunId) | SourceRecord
  type DecisionRecord = map<string, Value>

  datatype Refusal = DecisionNotAllowed | MissingFields(names: seq<string>)

  const DIRECT: set<string> := {"decision", "reviewer", "rationale"}
  const BASE: set<string> :=
    {"record_id", "status", "decision", "reviewer", "rationale", "requires_recompute", "run_id", "work_order_id", "source_record"}

  /** The values that count as no value. */
  ghost predicate Falsy(v: Value) {
    v in {Text(""), Flag(false), RunValue(NoRun), RunValue(Run(0))}
  }

  /** str(value or "") */
  function OrEmpty(v: Value): (text: string)
    ensures text == "" <==> Falsy(v)
  {
    match v
    case Text(s) => s
    case Flag(b) => if b then "True" else ""
    case RunValue(run) => if run == NoRun || run == Run(0) then "" else RunText(run)
    case SourceRecord => "{...}"
  }

  function TextOf(d: DecisionRecord, key: string): (text: string)
    ensures key !in d ==> text == ""
  {
    if key in d then OrEmpty(d[key]) else ""
  }

  function Truthy(d: DecisionRecord, key: string): (truthy: bool)
    ensures truthy <==> key in d && !Falsy(d[key])
  {
    key in d && match d[key]
      case Text(s) => s != ""
      case Flag(b) => b
      case RunValue(run) => run != NoRun && run != Run(0)
      case SourceRecord => true
  }

  function Get(m: map<string, string>, key: string): string {
    if key in m then m[key] else ""
  }

  /** ", ".join */
  function CommaJoin(parts: seq<string>): string {
    if parts == [] then "" else if |parts| == 1 then parts[0] else CommaJoin(parts[..|parts| - 1]) + ", " + parts[|parts| - 1]
  }

  /** The same from the front. */
  lemma {:induction false} CommaJoinFromTheFront(parts: seq<string>)
    ensures parts == [] ==> CommaJoin(parts) == ""
    ensures |parts| == 1 ==> CommaJoin(parts) == parts[0]
    ensures |parts| > 1 ==> CommaJoin(parts) == parts[0] + ", " + CommaJoin(parts[1..])
  {
    if |parts| > 2 {
      var front := parts[..|parts| - 1];
      CommaJoinFromTheFront(front);
      assert front[1..] == parts[1..][..|parts| - 2];
    } else if |parts| == 2 {
      assert parts[..1] == [parts[0]] && parts[1..] == [parts[1]];
    }
  }

  /** _default_field_value */
  function DefaultFieldValue(field: string, record: PendingRecord, given: map<string, string>): string {
    if field in given then given[field]
    else if field == "profile_url" then CommaJoin(Firsts(Stripped(record.reviewUrls)))
    else if field == "affected_material_fields" then CommaJoin(Firsts(Stripped(record.affectedFields)))
    else if Get(record.nested, field) != "" then record.nested[field]
    else Get(record.fields, field)
  }

  /** _run_id */
  function RunIdOf(record: PendingRecord): (run: RunId)
    ensures run.NoRun? <==> record.cardRun.NoRun? && record.nestedRun.NoRun?
    ensures record.cardRun.Run? ==> run == record.cardRun
  {
    if record.cardRun.Run? then record.cardRun else record.nestedRun
  }

  /** What a completed record holds under a name, whichever branch put it there. */
  function FieldText(field: string, record: PendingRecord, decision: string, reviewer: string, rationale: string,
                     given: map<string, string>): string
  {
    if field == "decision" then decision
    else if field == "reviewer" then reviewer
    else if field == "rationale" then rationale
    else DefaultFieldValue(field, record, given)
  }

  /** The record holds what every completed record holds, except where one of these required names was filled in. */
  ghost predicate FilledIn(d: DecisionRecord, names: set<string>, record: PendingRecord,
                           decision: string, reviewer: string, rationale: string, given: map<string, string>)
  {
    && d.Keys == BASE + (names - DIRECT)
    && (forall f :: f in names - DIRECT ==> d[f] == Text(DefaultFieldValue(f, record, given)))
    && d["decision"] == Text(decision) && d["reviewer"] == Text(reviewer) && d["rationale"] == Text(rationale)
    && ("status" !in names ==> d["status"] == Text("completed"))
    && ("record_id" !in names ==> d["record_id"] == Text(record.recordId))
    && ("work_order_id" !in names ==> d["work_order_id"] == Text(record.workOrderId))
    && ("requires_recompute" !in names ==> d["requires_recompute"] == Flag(record.requiresRecompute))
    && ("run_id" !in names ==> d["run_id"] == RunValue(RunIdOf(record)))
    && ("source_record" !in names ==> d["source_record"] == SourceRecord)
  }

  function NamesIn(fields: seq<string>): set<string> {
    set f | f in fields
  }

  /** The body of the loop. */
  method FillOne(d: DecisionRecord, ghost names: set<string>, field: string, record: PendingRecord,
                 ghost decision: string, ghost reviewer: string, ghost rationale: string, given: map<string, string>)
    returns (completed: DecisionRecord)
    requires FilledIn(d, names, record, decision, reviewer, rationale, given)
    ensures FilledIn(completed, names + {field}, record, decision, reviewer, rationale, given)
  {
    completed := d;
    if field !in DIRECT {
      completed := completed[field := Text(DefaultFieldValue(field, record, given))];
    }
  }

  lemma NamesOfOneMore(fields: seq<string>, i: nat)
    requires i < |fields|
    ensures NamesIn(fields[..i + 1]) == NamesIn(fields[..i]) + {fields[i]}
  {
    assert fields[..i + 1] == fields[..i] + [fields[i]];
  }

  /** The record before the loop. */
  method StartRecord(record: PendingRecord, decision: string, reviewer: string, rationale: string, ghost given: map<string, string>)
    returns (completed: DecisionRecord)
    ensures FilledIn(completed, {}, record, decision, reviewer, rationale, given)
  {
    completed :=
      map["record_id" := Text(record.recordId), "status" := Text("completed"), "decision" := Text(decision),
          "reviewer" := Text(reviewer), "rationale" := Text(rationale), "requires_recompute" := Flag(record.requiresRecompute),
          "run_id" := RunValue(RunIdOf(record)), "work_order_id" := Text(record.workOrderId), "source_record" := SourceRecord];
  }

  method FillFields(record: PendingRecord, decision: string, reviewer: string, rationale: string, given: map<string, string>)
    returns (completed: DecisionRecord)
    ensures FilledIn(completed, NamesIn(record.required), record, decision, reviewer, rationale, given)
  {
    completed := StartRecord(record, decision, reviewer, rationale, given);
    assert NamesIn(record.required[..0]) == {};
    for i := 0 to |record.required|
      invariant FilledIn(completed, NamesIn(record.required[..i]), record, decision, reviewer, rationale, given)
    {
      NamesOfOneMore(record.required, i);
      completed := FillOne(completed, NamesIn(record.required[..i]), record.required[i], record, decision, reviewer, rationale, given);
    }
    assert record.required[..|record.required|] == record.required;
  }

  /** build_decision_record: accepted exactly if the decision is allowed and every required field has a
      value that is not blank; then the record holds the decision and those values. */
  method BuildDecisionRecord(record: PendingRecord, decision: string, reviewer: string, rationale: string,
                             given: map<string, string>)
    returns (r: Result<DecisionRecord, Refusal>)
    ensures r.Ok? <==>
            && decision in record.allowed
            && forall f :: f in record.required ==> !Blank(FieldText(f, record, decision, reviewer, rationale, given))
    ensures r.Ok? ==> FilledIn(r.value, NamesIn(record.required), record, decision, reviewer, rationale, given)
    ensures r == Err(DecisionNotAllowed) <==> decision !in record.allowed
    ensures r.Err? && r.error.MissingFields? ==>
            forall f :: f in r.error.names <==> f in record.required && Blank(FieldText(f, record, decision, reviewer, rationale, given))
  {
    if decision !in record.allowed {
      return Err(DecisionNotAllowed);
    }
    var completed := FillFields(record, decision, reviewer, rationale, given);
    var missing := Missing(completed, record, decision, reviewer, rationale, given);
    r := if missing != [] then Err(MissingFields(missing)) else Ok(completed);
  }

  /** The required fields without a value. */
  method Missing(completed: DecisionRecord, record: PendingRecord, ghost decision: string, ghost reviewer: string,
                 ghost rationale: string, ghost given: map<string, string>)
    returns (missing: seq<string>)
    requires FilledIn(completed, NamesIn(record.required), record, decision, reviewer, rationale, given)
    ensures forall f :: f in missing <==> f in record.required && Blank(FieldText(f, record, decision, reviewer, rationale, given))
    ensures missing != [] ==> missing[0] in missing
  {
    FilledTexts(completed, record, decision, reviewer, rationale, given);
    missing := Filter(record.required, f => Blank(TextOf(completed, f)));
  }

  lemma FilledTexts(d: DecisionRecord, record: PendingRecord, decision: string, reviewer: string, rationale: string,
                    given: map<string, string>)
    requires FilledIn(d, NamesIn(record.required), record, decision, reviewer, rationale, given)
    ensures forall f :: f in record.required ==> TextOf(d, f) == FieldText(f, record, decision, reviewer, rationale, given)
  {
    forall f | f in record.required
      ensures TextOf(d, f) == FieldText(f, record, decision, reviewer, rationale, given)
    {
      assert f in NamesIn(record.required);
    }
  }

  /** The ids of the record: they survive completion unless a required field of that name is given another value. */
  predicate KeepsIds(record: PendingRecord, given: map<string, string>) {
    && ("record_id" in record.required ==> DefaultFieldValue("record_id", record, given) == record.recordId)
    && ("work_order_id" in record.required ==> DefaultFieldValue("work_order_id", record, given) == record.workOrderId)
  }

  lemma IdsSurviveIff(d: DecisionRecord, record: PendingRecord, decision: string, reviewer: string, rationale: string,
                      given: map<string, string>)
    requires FilledIn(d, NamesIn(record.required), record, decision, reviewer, rationale, given)
    ensures TextOf(d, "record_id") == record.recordId && TextOf(d, "work_order_id") == record.workOrderId <==> KeepsIds(record, given)
    ensures TextOf(d, "decision") == decision && TextOf(d, "reviewer") == reviewer && TextOf(d, "rationale") == rationale
    ensures d != map[]
  {
    var names := NamesIn(record.required);
    assert "record_id" in names <==> "record_id" in record.required;
    assert "work_order_id" in names <==> "work_order_id" in record.required;
    assert "record_id" in d && "work_order_id" in d && "decision" in d && "reviewer" in d && "rationale" in d;
  }
}
