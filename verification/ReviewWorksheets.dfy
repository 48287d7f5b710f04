/** Validating a returned review worksheet against the rows that were handed out. */
module ReviewWorksheets {
  import opened DistinctTexts
  import opened Prelude

  // A row of the returned file: the cells by column. A row that is too short has no value in its last columns.
  type Row = map<string, Option<string>>

  // What the artifact prescribes for one identity: the columns, and the cells that must be unchanged.
  datatype Entry = Entry(columns: set<string>, immutable: map<string, string>)

  datatype Refusal =
    | IdentitiesDiffer | ColumnsDiffer | ImmutableChanged | InvalidDecision | ReviewIncomplete | InvalidTime | NoTimezone
    | Raised   // an error of another kind, from a missing identity column or cell

  // The outcome of parsing a time: None if it cannot be parsed, otherwise whether it has a time zone.
  type Clock = string -> Option<bool>

  const MUTABLE: set<string> := {"human_decision", "human_rationale", "reviewer_id", "reviewed_at"}

  function Cell(row: Row, column: string): Option<string> {
    if column in row then row[column] else None
  }

  ghost predicate Given(row: Row, column: string) {
    column in row && row[column].Some?
  }

  /** row.get(column) or "" */
  function IdOf(row: Row, identity: string): (id: string)
    ensures if Given(row, identity) then row[identity] == Some(id) else id == ""
  {
    if Cell(row, identity).Some? then row[identity].value else ""
  }

  function Ids(rows: seq<Row>, identity: string): (ids: seq<string>)
    ensures |ids| == |rows| && forall i :: 0 <= i < |rows| ==> ids[i] == IdOf(rows[i], identity)
  {
    seq(|rows|, i requires 0 <= i < |rows| => IdOf(rows[i], identity))
  }

  function ToSet(ids: seq<string>): set<string> {
    set id | id in ids
  }

  ghost predicate Distinct(ids: seq<string>) {
    forall i, j :: 0 <= i < j < |ids| ==> ids[i] != ids[j]
  }

  lemma {:induction false} DistinctIffNoneIsLost(ids: seq<string>)
    ensures |ToSet(ids)| <= |ids|
    ensures |ToSet(ids)| == |ids| <==> Distinct(ids)
  {
    if ids != [] {
      var front, last := ids[..|ids| - 1], ids[|ids| - 1];
      DistinctIffNoneIsLost(front);
      assert ToSet(ids) == ToSet(front) + {last};
      if last in front {
        assert ToSet(ids) == ToSet(front);
      } else {
        assert |ToSet(ids)| == |ToSet(front)| + 1;
      }
    }
  }

  // ----- one row -----

  predicate Unchanged(row: Row, immutable: map<string, string>) {
    forall column | column in immutable :: Cell(row, column) == Some(immutable[column])
  }

  ghost predicate Filled(row: Row, column: string) {
    Given(row, column) && !Blank(row[column].value)
  }

  /** The row is one that a reviewer may return for this entry. */
  ghost predicate Reviewed(row: Row, entry: Entry, clock: Clock) {
    && row.Keys == entry.columns
    && (forall column :: column in entry.immutable ==> column in row && row[column] == Some(entry.immutable[column]))
    && "human_decision" in row && row["human_decision"] in {Some("accept"), Some("reject")}
    && Filled(row, "human_rationale") && Filled(row, "reviewer_id")
    && Given(row, "reviewed_at") && clock(row["reviewed_at"].value) == Some(true)
  }

  /** The body of the loop: the first check that fails decides the error. */
  function CheckRow(row: Row, entry: Entry, clock: Clock): (error: Option<Refusal>)
    ensures error.None? <==> Reviewed(row, entry, clock)
    ensures error != Some(IdentitiesDiffer)
  {
    var decision, rationale := Cell(row, "human_decision"), Cell(row, "human_rationale");
    var reviewer, time := Cell(row, "reviewer_id"), Cell(row, "reviewed_at");
    if row.Keys != entry.columns then Some(ColumnsDiffer)
    else if !Unchanged(row, entry.immutable) then Some(ImmutableChanged)
    else if decision != Some("accept") && decision != Some("reject") then Some(InvalidDecision)
    else if rationale.None? then Some(Raised)
    else if Blank(rationale.value) then Some(ReviewIncomplete)
    else if reviewer.None? then Some(Raised)
    else if Blank(reviewer.value) then Some(ReviewIncomplete)
    else if time.None? then Some(Raised)
    else if clock(time.value).None? then Some(InvalidTime)
    else if !clock(time.value).value then Some(NoTimezone)
    else None
  }

  // ----- the worksheet -----

  /** The rows are in bijection with the entries. */
  ghost predicate SameIdentities(rows: seq<Row>, identity: string, entries: map<string, Entry>) {
    && |rows| == |entries| && Distinct(Ids(rows, identity))
    && (forall i :: 0 <= i < |rows| ==> IdOf(rows[i], identity) in entries)
    && (forall id :: id in entries ==> exists i :: 0 <= i < |rows| && IdOf(rows[i], identity) == id)
  }

  /** The row names an entry and is a review of it. */
  ghost predicate RowPasses(row: Row, identity: string, entries: map<string, Entry>, clock: Clock) {
    Given(row, identity) && row[identity].value in entries && Reviewed(row, entries[row[identity].value], clock)
  }

  ghost predicate AllPass(rows: seq<Row>, identity: string, entries: map<string, Entry>, clock: Clock) {
    forall i :: 0 <= i < |rows| ==> RowPasses(rows[i], identity, entries, clock)
  }

  /** The worksheet is accepted exactly if this holds. */
  ghost predicate Accepted(rows: seq<Row>, identity: string, entries: map<string, Entry>, clock: Clock) {
    SameIdentities(rows, identity, entries) && AllPass(rows, identity, entries, clock)
  }

  lemma IdentitiesPassed(rows: seq<Row>, identity: string, entries: map<string, Entry>)
    requires SameIdentities(rows, identity, entries)
    ensures |ToSet(Ids(rows, identity))| == |rows| && ToSet(Ids(rows, identity)) == entries.Keys
  {
    var ids := Ids(rows, identity);
    DistinctIffNoneIsLost(ids);
    forall id | id in entries
      ensures id in ids
    {
      var i :| 0 <= i < |rows| && IdOf(rows[i], identity) == id;
      assert ids[i] == id;
    }
  }

  lemma IdentitiesPass(rows: seq<Row>, identity: string, entries: map<string, Entry>)
    requires |rows| == |entries| && |ToSet(Ids(rows, identity))| == |rows| && ToSet(Ids(rows, identity)) == entries.Keys
    ensures SameIdentities(rows, identity, entries)
  {
    var ids := Ids(rows, identity);
    DistinctIffNoneIsLost(ids);
    forall i | 0 <= i < |rows|
      ensures IdOf(rows[i], identity) in entries
    {
      assert ids[i] in ToSet(ids);
    }
    forall id | id in entries
      ensures exists i :: 0 <= i < |rows| && IdOf(rows[i], identity) == id
    {
      assert id in ToSet(ids);
      var i :| 0 <= i < |ids| && ids[i] == id;
      assert IdOf(rows[i], identity) == id;
    }
  }

  method CheckIdentities(rows: seq<Row>, identity: string, entries: map<string, Entry>) returns (ok: bool)
    ensures ok <==> SameIdentities(rows, identity, entries)
  {
    var ids := Ids(rows, identity);
    ok := |rows| == |entries| && |ids| == |ToSet(ids)| && ToSet(ids) == entries.Keys;
    if ok {
      IdentitiesPass(rows, identity, entries);
    } else if SameIdentities(rows, identity, entries) {
      IdentitiesPassed(rows, identity, entries);
    }
  }

  function CheckOne(row: Row, identity: string, entries: map<string, Entry>, clock: Clock): (error: Option<Refusal>)
    ensures error.None? <==> RowPasses(row, identity, entries, clock)
    ensures error != Some(IdentitiesDiffer)
  {
    if Cell(row, identity).None? || row[identity].value !in entries then Some(Raised)
    else CheckRow(row, entries[row[identity].value], clock)
  }

  /** The loop of both _validated_rows, which stops at the first row that fails a check. */
  method CheckRows(rows: seq<Row>, identity: string, entries: map<string, Entry>, clock: Clock) returns (error: Option<Refusal>)
    ensures error.None? <==> AllPass(rows, identity, entries, clock)
    ensures error != Some(IdentitiesDiffer)
  {
    for i := 0 to |rows|
      invariant forall j :: 0 <= j < i ==> RowPasses(rows[j], identity, entries, clock)
    {
      error := CheckOne(rows[i], identity, entries, clock);
      if error.Some? {
        return;
      }
    }
    return None;
  }

  /** The common part of both _validated_rows: accepted exactly if the rows are in bijection with the entries and each
      row is a review of its entry with everything else unchanged. */
  method CheckWorksheet(rows: seq<Row>, identity: string, entries: map<string, Entry>, clock: Clock) returns (error: Option<Refusal>)
    ensures error.None? <==> Accepted(rows, identity, entries, clock)
    ensures error == Some(IdentitiesDiffer) <==> !SameIdentities(rows, identity, entries)
  {
    var same := CheckIdentities(rows, identity, entries);
    if !same {
      return Some(IdentitiesDiffer);
    }
    error := CheckRows(rows, identity, entries, clock);
  }

  // ----- the two scripts -----

  /** The cells that a reviewer must not change. */
  function WithoutMutable(row: map<string, string>): (cells: map<string, string>)
    ensures forall column :: column in cells <==>
              column in row && column !in {"human_decision", "human_rationale", "reviewer_id", "reviewed_at"}
    ensures forall column :: column in cells ==> cells[column] == row[column]
  {
    map column | column in row && column !in MUTABLE :: row[column]
  }

  /** {row[identity]: row for row in expected}, with what is checked of each row. A later row replaces an earlier one. */
  function EntriesOf(expected: seq<map<string, string>>, identity: string): (entries: map<string, Entry>)
    requires forall row :: row in expected ==> identity in row
  {
    if expected == [] then map[]
    else
      var row := expected[|expected| - 1];
      EntriesOf(expected[..|expected| - 1], identity)[row[identity] := Entry(row.Keys, WithoutMutable(row))]
  }

  /** _validated_rows of the exact relation review: `expected` are the rows that were handed out. */
  method ValidatedRows(rows: seq<Row>, expected: seq<map<string, string>>, identity: string, clock: Clock)
    returns (r: Result<seq<Row>, Refusal>)
    requires forall row :: row in expected ==> identity in row
    ensures r.Ok? <==> Accepted(rows, identity, EntriesOf(expected, identity), clock)
    ensures r.Ok? ==> r.value == rows
  {
    var error := CheckWorksheet(rows, identity, EntriesOf(expected, identity), clock);
    r := if error.None? then Ok(rows) else Err(error.value);
  }

  function WithColumns(expected: map<string, map<string, string>>, mutable: set<string>): (entries: map<string, Entry>)
    ensures entries.Keys == expected.Keys
  {
    map id | id in expected :: Entry(expected[id].Keys + mutable, expected[id])
  }

  /** _validated_rows of the coverage supplement review: the entries hold the immutable cells only. */
  method ValidatedEntries(rows: seq<Row>, expected: map<string, map<string, string>>, identity: string, mutable: set<string>, clock: Clock)
    returns (r: Result<seq<Row>, Refusal>)
    ensures r.Ok? <==> Accepted(rows, identity, WithColumns(expected, mutable), clock)
    ensures r.Ok? ==> r.value == rows
  {
    assert |WithColumns(expected, mutable)| == |expected|;
    var error := CheckWorksheet(rows, identity, WithColumns(expected, mutable), clock);
    r := if error.None? then Ok(rows) else Err(error.value);
  }

  // A basis relation of the artifact, with the cells that describe it, or none if its evidence or tile contract is unknown.
  datatype Described = Described(relationId: string, cells: Option<map<string, string>>)

  /** The dictionary filled from the first n relations; a later relation with the same id replaces an earlier one. */
  function Expected(relations: seq<Described>, n: nat): (expected: map<string, map<string, string>>)
    requires n <= |relations| && forall i :: 0 <= i < n ==> relations[i].cells.Some?
    ensures forall id :: id in expected <==> exists i :: 0 <= i < n && relations[i].relationId == id
  {
    if n == 0 then map[] else Expected(relations, n - 1)[relations[n - 1].relationId := relations[n - 1].cells.value]
  }

  /** _validated_relation_rows */
  method ValidatedRelationRows(rows: seq<Row>, relations: seq<Described>, clock: Clock) returns (r: Result<seq<Row>, Refusal>)
    ensures r.Ok? <==> && (forall i :: 0 <= i < |relations| ==> relations[i].cells.Some?)
                       && Accepted(rows, "relation_id", WithColumns(Expected(relations, |relations|), MUTABLE), clock)
    ensures r.Ok? ==> r.value == rows
  {
    var expected := map[];
    for i := 0 to |relations|
      invariant forall j :: 0 <= j < i ==> relations[j].cells.Some?
      invariant expected == Expected(relations, i)
    {
      if relations[i].cells.None? {
        return Err(Raised);
      }
      expected := expected[relations[i].relationId := relations[i].cells.value];
    }
    r := ValidatedEntries(rows, expected, "relation_id", MUTABLE, clock);
  }

  // ----- what acceptance means -----

  function Text(row: Row, column: string): (text: string)
    ensures if Given(row, column) then row[column] == Some(text) else text == ""
  {
    if Cell(row, column).Some? then row[column].value else ""
  }

  ghost predicate AllDecide(rows: seq<Row>) {
    forall i :: 0 <= i < |rows| ==> Text(rows[i], "human_decision") in {"accept", "reject"}
  }

  lemma AcceptedDecide(rows: seq<Row>, identity: string, entries: map<string, Entry>, clock: Clock)
    requires Accepted(rows, identity, entries, clock)
    ensures SameIdentities(rows, identity, entries) && AllDecide(rows)
  {
  }

  /** Every entry has exactly one row, which carries its immutable cells and a decision. */
  lemma EveryEntryIsReviewedOnce(rows: seq<Row>, identity: string, entries: map<string, Entry>, clock: Clock, id: string)
    returns (i: nat)
    requires Accepted(rows, identity, entries, clock) && id in entries
    ensures i < |rows| && Given(rows[i], identity) && rows[i][identity].value == id && Reviewed(rows[i], entries[id], clock)
    ensures forall j :: 0 <= j < |rows| && IdOf(rows[j], identity) == id ==> j == i
  {
    i :| 0 <= i < |rows| && IdOf(rows[i], identity) == id;
    assert RowPasses(rows[i], identity, entries, clock);
    var ids := Ids(rows, identity);
    forall j | 0 <= j < |rows| && IdOf(rows[j], identity) == id
      ensures j == i
    {
      assert ids[i] == ids[j];
    }
  }
}
