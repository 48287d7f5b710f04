/** From two accepted worksheets to one decision for every relation, and the tiles these decisions accept. */
module RelationReview {
  import opened Prelude
  import opened ReviewWorksheets

  // A group of relations that accept a tile together. An atomic group is reviewed by its relation, any other as a whole.
  // `cells` are the cells of its worksheet row other than its ids.
  datatype Group = Group(groupId: string, atomic: bool, tileId: string, relations: seq<string>, cells: map<string, string>)

  datatype RelationDecision = RelationDecision(relation: string, decision: string, rationale: string)

  /** What validation of the artifact provides: group ids and relation ids are distinct, an atomic group has one relation. */
  ghost predicate CoversOnce(groups: seq<Group>) {
    && (forall i, j :: 0 <= i < j < |groups| ==> groups[i].groupId != groups[j].groupId)
    && (forall i, j, r :: 0 <= i < j < |groups| && r in groups[i].relations ==> r !in groups[j].relations)
    && (forall g :: g in groups ==> Distinct(g.relations) && (g.atomic ==> |g.relations| == 1))
  }

  ghost predicate HaveRelation(groups: seq<Group>) {
    forall i | 0 <= i < |groups| && groups[i].atomic :: groups[i].relations != []
  }

  // ----- the rows that are handed out -----

  const BLANKS: map<string, string> := map["human_decision" := "", "human_rationale" := "", "reviewer_id" := "", "reviewed_at" := ""]

  ghost predicate HandedOutBlank(row: map<string, string>) {
    forall column :: column in {"human_decision", "human_rationale", "reviewer_id", "reviewed_at"} ==>
      column in row && row[column] == ""
  }

  function AtomicRow(g: Group): (row: map<string, string>)
    requires g.relations != []
    ensures "relation_id" in row && row["relation_id"] == g.relations[0]
    ensures "group_id" in row && row["group_id"] == g.groupId
    ensures HandedOutBlank(row)
  {
    (g.cells + BLANKS)["group_id" := g.groupId]["relation_id" := g.relations[0]]
  }

  function CompositeRow(g: Group): (row: map<string, string>)
    ensures "group_id" in row && row["group_id"] == g.groupId
    ensures HandedOutBlank(row)
  {
    (g.cells + BLANKS)["group_id" := g.groupId]
  }

  /** build_exact_relation_review_worksheets: one row for each atomic group, named by its relation, ... */
  function AtomicRows(groups: seq<Group>): (rows: seq<map<string, string>>)
    requires HaveRelation(groups)
    ensures forall row :: row in rows ==> "relation_id" in row
  {
    if groups == [] then []
    else
      var front, last := AtomicRows(groups[..|groups| - 1]), groups[|groups| - 1];
      if last.atomic then front + [AtomicRow(last)] else front
  }

  /** ... and one for each other group, named by the group. */
  function CompositeRows(groups: seq<Group>): (rows: seq<map<string, string>>)
    ensures forall row :: row in rows ==> "group_id" in row
  {
    if groups == [] then []
    else
      var front, last := CompositeRows(groups[..|groups| - 1]), groups[|groups| - 1];
      if last.atomic then front else front + [CompositeRow(last)]
  }

  function AtomicEntries(groups: seq<Group>): map<string, Entry>
    requires HaveRelation(groups)
  {
    EntriesOf(AtomicRows(groups), "relation_id")
  }

  function CompositeEntries(groups: seq<Group>): map<string, Entry> {
    EntriesOf(CompositeRows(groups), "group_id")
  }

  lemma OneMoreEntry(rows: seq<map<string, string>>, row: map<string, string>, identity: string)
    requires identity in row && forall r :: r in rows ==> identity in r
    ensures EntriesOf(rows + [row], identity).Keys == EntriesOf(rows, identity).Keys + {row[identity]}
  {
  }

  lemma {:induction false} AtomicEntryKeys(groups: seq<Group>, id: string)
    requires HaveRelation(groups)
    ensures id in AtomicEntries(groups) <==> exists i :: 0 <= i < |groups| && groups[i].atomic && groups[i].relations[0] == id
  {
    if groups != [] {
      var front, last := groups[..|groups| - 1], groups[|groups| - 1];
      AtomicEntryKeys(front, id);
      assert forall i :: 0 <= i < |front| ==> groups[i] == front[i];
      if last.atomic {
        OneMoreEntry(AtomicRows(front), AtomicRow(last), "relation_id");
      }
    }
  }

  lemma {:induction false} CompositeEntryKeys(groups: seq<Group>, id: string)
    ensures id in CompositeEntries(groups) <==> exists i :: 0 <= i < |groups| && !groups[i].atomic && groups[i].groupId == id
  {
    if groups != [] {
      var front, last := groups[..|groups| - 1], groups[|groups| - 1];
      CompositeEntryKeys(front, id);
      assert forall i :: 0 <= i < |front| ==> groups[i] == front[i];
      if !last.atomic {
        OneMoreEntry(CompositeRows(front), CompositeRow(last), "group_id");
      }
    }
  }

  // ----- the answers that came back -----

  // What a row answers: the relation of an atomic group, or another group as a whole.
  datatype Key = OfRelation(id: string) | OfGroup(id: string)
  datatype Answer = Answer(key: Key, decision: string, rationale: string)

  function KeyOf(g: Group): Key {
    if g.atomic then OfRelation(if g.relations == [] then "" else g.relations[0]) else OfGroup(g.groupId)
  }

  ghost function AnswerOf(row: Row, key: Key): Answer {
    Answer(key, Text(row, "human_decision"), Text(row, "human_rationale"))
  }

  /** The answers of the two worksheets, atomic rows first. */
  ghost function Answers(atomic: seq<Row>, composite: seq<Row>): (answers: seq<Answer>)
    ensures |answers| == |atomic| + |composite|
    ensures forall i :: 0 <= i < |atomic| ==> answers[i] == AnswerOf(atomic[i], OfRelation(IdOf(atomic[i], "relation_id")))
    ensures forall i :: 0 <= i < |composite| ==>
              answers[|atomic| + i] == AnswerOf(composite[i], OfGroup(IdOf(composite[i], "group_id")))
  {
    seq(|atomic|, i requires 0 <= i < |atomic| => AnswerOf(atomic[i], OfRelation(IdOf(atomic[i], "relation_id"))))
    + seq(|composite|, i requires 0 <= i < |composite| => AnswerOf(composite[i], OfGroup(IdOf(composite[i], "group_id"))))
  }

  /** The group that an answer is about. */
  function GroupFor(groups: seq<Group>, key: Key): (g: Option<Group>)
    ensures g.Some? ==> g.value in groups && KeyOf(g.value) == key
    ensures g.None? ==> forall h :: h in groups ==> KeyOf(h) != key
  {
    if groups == [] then None
    else if KeyOf(groups[|groups| - 1]) == key then Some(groups[|groups| - 1])
    else GroupFor(groups[..|groups| - 1], key)
  }

  ghost predicate DistinctKeys(answers: seq<Answer>) {
    forall i, j :: 0 <= i < j < |answers| ==> answers[i].key != answers[j].key
  }

  ghost predicate IsAboutAGroup(answer: Answer, groups: seq<Group>) {
    GroupFor(groups, answer.key).Some? && answer.decision in {"accept", "reject"}
  }

  /** Every group has exactly one answer, and every answer is about a group. */
  ghost predicate Answered(answers: seq<Answer>, groups: seq<Group>) {
    && DistinctKeys(answers)
    && (forall i :: 0 <= i < |answers| ==> IsAboutAGroup(answers[i], groups))
    && (forall g :: g in groups ==> exists i :: 0 <= i < |answers| && answers[i].key == KeyOf(g))
  }

  lemma SameGroup(groups: seq<Group>, g: Group, h: Group, r: string)
    requires CoversOnce(groups) && g in groups && h in groups && r in g.relations && r in h.relations
    ensures g == h
  {
  }

  lemma SameKey(groups: seq<Group>, g: Group, h: Group)
    requires CoversOnce(groups) && g in groups && h in groups && KeyOf(g) == KeyOf(h)
    ensures g == h
  {
    if g.atomic {
      assert |g.relations| == 1 && |h.relations| == 1;
      SameGroup(groups, g, h, g.relations[0]);
    } else {
      var i, j :| 0 <= i < |groups| && groups[i] == g && 0 <= j < |groups| && groups[j] == h;
    }
  }

  // ----- the accepted worksheets answer every group once -----

  lemma AtomicHasGroup(groups: seq<Group>, id: string)
    requires HaveRelation(groups) && id in AtomicEntries(groups)
    ensures GroupFor(groups, OfRelation(id)).Some?
  {
  }

  lemma CompositeHasGroup(groups: seq<Group>, id: string)
    requires id in CompositeEntries(groups)
    ensures GroupFor(groups, OfGroup(id)).Some?
  {
  }

  lemma AnswerKeysAreDistinct(atomic: seq<Row>, composite: seq<Row>)
    requires Distinct(Ids(atomic, "relation_id")) && Distinct(Ids(composite, "group_id"))
    ensures DistinctKeys(Answers(atomic, composite))
  {
  }

  lemma GroupIsAnswered(atomic: seq<Row>, composite: seq<Row>, groups: seq<Group>, g: Group)
    requires HaveRelation(groups) && g in groups
    requires SameIdentities(atomic, "relation_id", AtomicEntries(groups))
    requires SameIdentities(composite, "group_id", CompositeEntries(groups))
    ensures exists i :: 0 <= i < |Answers(atomic, composite)| && Answers(atomic, composite)[i].key == KeyOf(g)
  {
    var k :| 0 <= k < |groups| && groups[k] == g;
    if g.atomic {
      AtomicEntryKeys(groups, g.relations[0]);
      var i :| 0 <= i < |atomic| && IdOf(atomic[i], "relation_id") == g.relations[0];
      assert Answers(atomic, composite)[i].key == KeyOf(g);
    } else {
      CompositeEntryKeys(groups, g.groupId);
      var i :| 0 <= i < |composite| && IdOf(composite[i], "group_id") == g.groupId;
      assert Answers(atomic, composite)[|atomic| + i].key == KeyOf(g);
    }
  }

  lemma AtomicAnswer(rows: seq<Row>, groups: seq<Group>, i: nat)
    requires HaveRelation(groups) && AllDecide(rows) && SameIdentities(rows, "relation_id", AtomicEntries(groups)) && i < |rows|
    ensures IsAboutAGroup(AnswerOf(rows[i], OfRelation(IdOf(rows[i], "relation_id"))), groups)
  {
    AtomicHasGroup(groups, IdOf(rows[i], "relation_id"));
  }

  lemma CompositeAnswer(rows: seq<Row>, groups: seq<Group>, i: nat)
    requires AllDecide(rows) && SameIdentities(rows, "group_id", CompositeEntries(groups)) && i < |rows|
    ensures IsAboutAGroup(AnswerOf(rows[i], OfGroup(IdOf(rows[i], "group_id"))), groups)
  {
    CompositeHasGroup(groups, IdOf(rows[i], "group_id"));
  }

  lemma AllAnswersAreAboutGroups(atomic: seq<Row>, composite: seq<Row>, groups: seq<Group>)
    requires forall i :: 0 <= i < |atomic| ==> IsAboutAGroup(AnswerOf(atomic[i], OfRelation(IdOf(atomic[i], "relation_id"))), groups)
    requires forall i :: 0 <= i < |composite| ==> IsAboutAGroup(AnswerOf(composite[i], OfGroup(IdOf(composite[i], "group_id"))), groups)
    ensures forall i :: 0 <= i < |Answers(atomic, composite)| ==> IsAboutAGroup(Answers(atomic, composite)[i], groups)
  {
  }

  lemma WorksheetsAnswerAll(atomic: seq<Row>, composite: seq<Row>, groups: seq<Group>)
    requires HaveRelation(groups) && AllDecide(atomic) && AllDecide(composite)
    requires SameIdentities(atomic, "relation_id", AtomicEntries(groups))
    requires SameIdentities(composite, "group_id", CompositeEntries(groups))
    ensures Answered(Answers(atomic, composite), groups)
  {
    AnswerKeysAreDistinct(atomic, composite);
    forall i | 0 <= i < |atomic|
      ensures IsAboutAGroup(AnswerOf(atomic[i], OfRelation(IdOf(atomic[i], "relation_id"))), groups)
    {
      AtomicAnswer(atomic, groups, i);
    }
    forall i | 0 <= i < |composite|
      ensures IsAboutAGroup(AnswerOf(composite[i], OfGroup(IdOf(composite[i], "group_id"))), groups)
    {
      CompositeAnswer(composite, groups, i);
    }
    AllAnswersAreAboutGroups(atomic, composite, groups);
    forall g | g in groups
      ensures exists i :: 0 <= i < |Answers(atomic, composite)| && Answers(atomic, composite)[i].key == KeyOf(g)
    {
      GroupIsAnswered(atomic, composite, groups, g);
    }
  }

  lemma AcceptedWorksheetsAnswerAll(atomic: seq<Row>, composite: seq<Row>, groups: seq<Group>, clock: Clock)
    requires HaveRelation(groups)
    requires Accepted(atomic, "relation_id", AtomicEntries(groups), clock)
    requires Accepted(composite, "group_id", CompositeEntries(groups), clock)
    ensures Answered(Answers(atomic, composite), groups)
  {
    AcceptedDecide(atomic, "relation_id", AtomicEntries(groups), clock);
    AcceptedDecide(composite, "group_id", CompositeEntries(groups), clock);
    WorksheetsAnswerAll(atomic, composite, groups);
  }

  // ----- the decisions -----

  /** One decision for each relation of the group, all as answered. */
  ghost function GroupDecisions(g: Group, answer: Answer): (ds: seq<RelationDecision>)
    ensures |ds| == |g.relations|
    ensures forall i :: 0 <= i < |ds| ==> ds[i] == RelationDecision(g.relations[i], answer.decision, answer.rationale)
  {
    seq(|g.relations|, i requires 0 <= i < |g.relations| => RelationDecision(g.relations[i], answer.decision, answer.rationale))
  }

  ghost predicate AllHaveGroups(answers: seq<Answer>, groups: seq<Group>) {
    forall i :: 0 <= i < |answers| ==> GroupFor(groups, answers[i].key).Some?
  }

  /** The decisions of the first n answers. */
  ghost function Decisions(answers: seq<Answer>, groups: seq<Group>, n: nat): seq<RelationDecision>
    requires n <= |answers| && AllHaveGroups(answers, groups)
  {
    if n == 0 then []
    else Decisions(answers, groups, n - 1) + GroupDecisions(GroupFor(groups, answers[n - 1].key).value, answers[n - 1])
  }

  /** {group["group_id"]: group} looks up the group of a composite row, although it holds the atomic groups too. */
  function GroupById(groups: seq<Group>, id: string): Option<Group> {
    if groups == [] then None
    else if groups[|groups| - 1].groupId == id then Some(groups[|groups| - 1])
    else GroupById(groups[..|groups| - 1], id)
  }

  lemma AtomicStep(groups: seq<Group>, answer: Answer)
    requires CoversOnce(groups) && answer.key.OfRelation? && GroupFor(groups, answer.key).Some?
    ensures GroupDecisions(GroupFor(groups, answer.key).value, answer) ==
            [RelationDecision(answer.key.id, answer.decision, answer.rationale)]
  {
  }

  lemma CompositeStep(groups: seq<Group>, key: Key)
    requires CoversOnce(groups) && key.OfGroup? && GroupFor(groups, key).Some?
    ensures GroupById(groups, key.id) == GroupFor(groups, key)
  {
  }

  ghost predicate AtomicFirst(answers: seq<Answer>, atomic: seq<Row>) {
    && |atomic| <= |answers|
    && forall i :: 0 <= i < |atomic| ==> answers[i] == AnswerOf(atomic[i], OfRelation(IdOf(atomic[i], "relation_id")))
  }

  ghost predicate CompositeFrom(answers: seq<Answer>, n: nat, composite: seq<Row>) {
    && |answers| == n + |composite|
    && forall i :: 0 <= i < |composite| ==> answers[n + i] == AnswerOf(composite[i], OfGroup(IdOf(composite[i], "group_id")))
  }

  lemma AnswersInOrder(atomic: seq<Row>, composite: seq<Row>)
    ensures AtomicFirst(Answers(atomic, composite), atomic)
    ensures CompositeFrom(Answers(atomic, composite), |atomic|, composite)
  {
  }

  /** The comprehension over the atomic rows. */
  method ExpandAtomic(atomic: seq<Row>, groups: seq<Group>, ghost answers: seq<Answer>) returns (decisions: seq<RelationDecision>)
    requires CoversOnce(groups) && AllHaveGroups(answers, groups) && AtomicFirst(answers, atomic)
    ensures decisions == Decisions(answers, groups, |atomic|)
  {
    decisions := [];
    for i := 0 to |atomic|
      invariant decisions == Decisions(answers, groups, i)
    {
      var row := atomic[i];
      assert answers[i] == AnswerOf(row, OfRelation(IdOf(row, "relation_id")));
      AtomicStep(groups, answers[i]);
      decisions := decisions + [RelationDecision(IdOf(row, "relation_id"), Text(row, "human_decision"), Text(row, "human_rationale"))];
    }
  }

  /** The generator over the relations of a group. */
  method OwnDecisions(relations: seq<string>, decision: string, rationale: string) returns (own: seq<RelationDecision>)
    ensures |own| == |relations|
    ensures forall k :: 0 <= k < |own| ==> own[k] == RelationDecision(relations[k], decision, rationale)
  {
    own := [];
    for k := 0 to |relations|
      invariant |own| == k && forall j :: 0 <= j < k ==> own[j] == RelationDecision(relations[j], decision, rationale)
    {
      own := own + [RelationDecision(relations[k], decision, rationale)];
    }
  }

  /** The loop over the composite rows, which extends the decisions by those for the group's relations. */
  method ExpandComposite(composite: seq<Row>, groups: seq<Group>, ghost answers: seq<Answer>, ghost n: nat, start: seq<RelationDecision>)
    returns (decisions: seq<RelationDecision>)
    requires CoversOnce(groups) && AllHaveGroups(answers, groups) && CompositeFrom(answers, n, composite)
    requires start == Decisions(answers, groups, n)
    ensures decisions == Decisions(answers, groups, |answers|)
  {
    decisions := start;
    for i := 0 to |composite|
      invariant decisions == Decisions(answers, groups, n + i)
    {
      var row := composite[i];
      var id := IdOf(row, "group_id");
      assert answers[n + i] == AnswerOf(row, OfGroup(id));
      CompositeStep(groups, OfGroup(id));
      var group := GroupById(groups, id).value;
      var own := OwnDecisions(group.relations, Text(row, "human_decision"), Text(row, "human_rationale"));
      assert own == GroupDecisions(group, answers[n + i]);
      decisions := decisions + own;
    }
  }

  /** Both parts, for the answers of the two worksheets. */
  method ExpandDecisions(atomic: seq<Row>, composite: seq<Row>, groups: seq<Group>, ghost answers: seq<Answer>)
    returns (decisions: seq<RelationDecision>)
    requires CoversOnce(groups) && AllHaveGroups(answers, groups)
    requires AtomicFirst(answers, atomic) && CompositeFrom(answers, |atomic|, composite)
    ensures decisions == Decisions(answers, groups, |answers|)
  {
    decisions := ExpandAtomic(atomic, groups, answers);
    decisions := ExpandComposite(composite, groups, answers, |atomic|, decisions);
  }

  /** Where a decision comes from. */
  lemma {:induction false} DecisionSource(answers: seq<Answer>, groups: seq<Group>, n: nat, d: RelationDecision) returns (g: Group, i: nat)
    requires n <= |answers| && AllHaveGroups(answers, groups)
    requires d in Decisions(answers, groups, n)
    ensures i < n && GroupFor(groups, answers[i].key) == Some(g) && d.relation in g.relations
    ensures d.decision == answers[i].decision && d.rationale == answers[i].rationale
  {
    if d in Decisions(answers, groups, n - 1) {
      g, i := DecisionSource(answers, groups, n - 1, d);
    } else {
      g, i := GroupFor(groups, answers[n - 1].key).value, n - 1;
      var k :| 0 <= k < |g.relations| && GroupDecisions(g, answers[i])[k] == d;
    }
  }

  /** Every relation of an answered group is decided. */
  lemma {:induction false} DecisionTarget(answers: seq<Answer>, groups: seq<Group>, n: nat, i: nat, r: string) returns (d: RelationDecision)
    requires i < n <= |answers| && AllHaveGroups(answers, groups)
    requires r in GroupFor(groups, answers[i].key).value.relations
    ensures d in Decisions(answers, groups, n) && d.relation == r
  {
    if i < n - 1 {
      d := DecisionTarget(answers, groups, n - 1, i, r);
    } else {
      var g := GroupFor(groups, answers[i].key).value;
      var k :| 0 <= k < |g.relations| && g.relations[k] == r;
      d := GroupDecisions(g, answers[i])[k];
    }
  }

  ghost predicate DistinctRelations(decisions: seq<RelationDecision>) {
    forall i, j :: 0 <= i < j < |decisions| ==> decisions[i].relation != decisions[j].relation
  }

  lemma NewRelations(before: seq<RelationDecision>, own: seq<RelationDecision>, g: Group, answer: Answer)
    requires DistinctRelations(before) && Distinct(g.relations) && own == GroupDecisions(g, answer)
    requires forall d :: d in before ==> d.relation !in g.relations
    ensures DistinctRelations(before + own)
  {
  }

  /** A decision of an earlier answer is about another group. */
  lemma DecidedElsewhere(answers: seq<Answer>, groups: seq<Group>, n: nat, d: RelationDecision)
    requires CoversOnce(groups) && DistinctKeys(answers) && AllHaveGroups(answers, groups) && n < |answers|
    requires d in Decisions(answers, groups, n)
    ensures d.relation !in GroupFor(groups, answers[n].key).value.relations
  {
    var h, i := DecisionSource(answers, groups, n, d);
    var g := GroupFor(groups, answers[n].key).value;
    assert answers[i].key != answers[n].key;
    if d.relation in g.relations {
      SameGroup(groups, g, h, d.relation);
    }
  }

  lemma OneMoreAnswer(answers: seq<Answer>, groups: seq<Group>, n: nat)
    requires CoversOnce(groups) && DistinctKeys(answers) && AllHaveGroups(answers, groups) && n < |answers|
    requires DistinctRelations(Decisions(answers, groups, n))
    ensures DistinctRelations(Decisions(answers, groups, n + 1))
  {
    var before, g := Decisions(answers, groups, n), GroupFor(groups, answers[n].key).value;
    forall d | d in before
      ensures d.relation !in g.relations
    {
      DecidedElsewhere(answers, groups, n, d);
    }
    NewRelations(before, GroupDecisions(g, answers[n]), g, answers[n]);
  }

  /** No relation is decided twice. */
  lemma {:induction false} NoRelationTwice(answers: seq<Answer>, groups: seq<Group>, n: nat)
    requires CoversOnce(groups) && DistinctKeys(answers) && AllHaveGroups(answers, groups) && n <= |answers|
    ensures DistinctRelations(Decisions(answers, groups, n))
  {
    if n > 0 {
      NoRelationTwice(answers, groups, n - 1);
      OneMoreAnswer(answers, groups, n - 1);
    }
  }

  /** The single answer about a group. */
  ghost predicate DecidedAs(g: Group, decision: string, answers: seq<Answer>) {
    exists i :: 0 <= i < |answers| && answers[i].key == KeyOf(g) && answers[i].decision == decision
  }

  /** The decision says what the answer about this group says. */
  ghost predicate Repeats(d: RelationDecision, g: Group, answers: seq<Answer>) {
    exists i :: 0 <= i < |answers| && answers[i].key == KeyOf(g) && answers[i].decision == d.decision && answers[i].rationale == d.rationale
  }

  ghost predicate FollowsRow(d: RelationDecision, g: Group, answers: seq<Answer>) {
    DecidedAs(g, d.decision, answers) && Repeats(d, g, answers) && d.decision in {"accept", "reject"}
  }

  /** The decisions are about exactly the relations of the artifact, each once and as its group's row says. */
  ghost predicate FollowRows(decisions: seq<RelationDecision>, groups: seq<Group>, answers: seq<Answer>) {
    && DistinctRelations(decisions)
    && (forall d :: d in decisions ==> exists g :: g in groups && d.relation in g.relations)
    && (forall g, r :: g in groups && r in g.relations ==> exists d :: d in decisions && d.relation == r)
    && (forall d, g :: d in decisions && g in groups && d.relation in g.relations ==>
          FollowsRow(d, g, answers))
  }

  lemma DecisionFollowsRow(answers: seq<Answer>, groups: seq<Group>, d: RelationDecision, g: Group)
    requires CoversOnce(groups) && Answered(answers, groups) && d in Decisions(answers, groups, |answers|)
    requires g in groups && d.relation in g.relations
    ensures FollowsRow(d, g, answers)
  {
    var h, i := DecisionSource(answers, groups, |answers|, d);
    SameGroup(groups, g, h, d.relation);
  }

  lemma RelationHasDecision(answers: seq<Answer>, groups: seq<Group>, g: Group, r: string)
    requires CoversOnce(groups) && Answered(answers, groups) && g in groups && r in g.relations
    ensures exists d :: d in Decisions(answers, groups, |answers|) && d.relation == r
  {
    var i :| 0 <= i < |answers| && answers[i].key == KeyOf(g);
    SameKey(groups, g, GroupFor(groups, answers[i].key).value);
    var d := DecisionTarget(answers, groups, |answers|, i, r);
  }

  lemma DecisionsFollowTheRows(answers: seq<Answer>, groups: seq<Group>)
    requires CoversOnce(groups) && Answered(answers, groups)
    ensures FollowRows(Decisions(answers, groups, |answers|), groups, answers)
  {
    var decisions := Decisions(answers, groups, |answers|);
    NoRelationTwice(answers, groups, |answers|);
    forall d | d in decisions
      ensures exists g :: g in groups && d.relation in g.relations
    {
      var g, i := DecisionSource(answers, groups, |answers|, d);
    }
    forall g, r | g in groups && r in g.relations
      ensures exists d :: d in decisions && d.relation == r
    {
      RelationHasDecision(answers, groups, g, r);
    }
    forall d, g | d in decisions && g in groups && d.relation in g.relations
      ensures FollowsRow(d, g, answers)
    {
      DecisionFollowsRow(answers, groups, d, g);
    }
  }

  // ----- accepted and rejected relations -----

  function IdsDecided(decisions: seq<RelationDecision>, decision: string): (ids: set<string>)
    ensures forall r :: r in ids <==> exists d :: d in decisions && d.decision == decision && d.relation == r
  {
    set d | d in decisions && d.decision == decision :: d.relation
  }

  /** Accepted and rejected relations partition the relations of the artifact. */
  lemma AcceptedAndRejectedPartition(decisions: seq<RelationDecision>, groups: seq<Group>, answers: seq<Answer>)
    requires FollowRows(decisions, groups, answers)
    ensures IdsDecided(decisions, "accept") !! IdsDecided(decisions, "reject")
    ensures forall r :: r in IdsDecided(decisions, "accept") + IdsDecided(decisions, "reject") <==>
                        exists g :: g in groups && r in g.relations
  {
  }

  // ----- the tiles that are expected -----

  /** next(...): the first decision about the relation. */
  function FirstDecision(decisions: seq<RelationDecision>, r: string, from: nat): (d: Option<RelationDecision>)
    requires from <= |decisions|
    ensures d.Some? ==> d.value in decisions && d.value.relation == r
    ensures d.None? ==> forall i :: from <= i < |decisions| ==> decisions[i].relation != r
    decreases |decisions| - from
  {
    if from == |decisions| then None
    else if decisions[from].relation == r then Some(decisions[from])
    else FirstDecision(decisions, r, from + 1)
  }

  predicate AcceptedFirst(decisions: seq<RelationDecision>, r: string) {
    var d := FirstDecision(decisions, r, 0);
    d.Some? && d.value.decision == "accept"
  }

  predicate AllAccepted(g: Group, decisions: seq<RelationDecision>) {
    forall i | 0 <= i < |g.relations| :: AcceptedFirst(decisions, g.relations[i])
  }

  function ExpectedTiles(groups: seq<Group>, decisions: seq<RelationDecision>): set<string> {
    set g | g in groups && AllAccepted(g, decisions) :: g.tileId
  }

  lemma AcceptedFirstIff(decisions: seq<RelationDecision>, groups: seq<Group>, answers: seq<Answer>, g: Group, r: string)
    requires FollowRows(decisions, groups, answers) && DistinctKeys(answers) && g in groups && r in g.relations
    ensures AcceptedFirst(decisions, r) <==> DecidedAs(g, "accept", answers)
  {
  }

  /** A group's tile is expected on its account if and only if its single row was accepted; without relations, always. */
  lemma GroupAcceptedIff(decisions: seq<RelationDecision>, groups: seq<Group>, answers: seq<Answer>, g: Group)
    requires FollowRows(decisions, groups, answers) && DistinctKeys(answers) && g in groups
    ensures AllAccepted(g, decisions) <==> g.relations == [] || DecidedAs(g, "accept", answers)
  {
    forall k | 0 <= k < |g.relations|
      ensures AcceptedFirst(decisions, g.relations[k]) <==> DecidedAs(g, "accept", answers)
    {
      AcceptedFirstIff(decisions, groups, answers, g, g.relations[k]);
    }
    assert g.relations != [] ==> (AllAccepted(g, decisions) ==> AcceptedFirst(decisions, g.relations[0]));
  }

  lemma TileIsExpectedIff(decisions: seq<RelationDecision>, groups: seq<Group>, answers: seq<Answer>, tile: string)
    requires FollowRows(decisions, groups, answers) && DistinctKeys(answers)
    ensures tile in ExpectedTiles(groups, decisions) <==>
            exists g :: g in groups && g.tileId == tile && (g.relations == [] || DecidedAs(g, "accept", answers))
  {
    forall g | g in groups
      ensures AllAccepted(g, decisions) <==> g.relations == [] || DecidedAs(g, "accept", answers)
    {
      GroupAcceptedIff(decisions, groups, answers, g);
    }
  }

  // ----- the script -----

  function Values(rows: seq<Row>, column: string): set<string> {
    set i | 0 <= i < |rows| :: Text(rows[i], column)
  }

  /** All rows have the same text in this column. */
  ghost predicate OneValue(rows: seq<Row>, column: string) {
    rows != [] && forall i, j :: 0 <= i < |rows| && 0 <= j < |rows| ==> Text(rows[i], column) == Text(rows[j], column)
  }

  lemma OneValueIff(rows: seq<Row>, column: string)
    ensures |Values(rows, column)| == 1 <==> OneValue(rows, column)
  {
    if rows != [] {
      var first := Text(rows[0], column);
      assert first in Values(rows, column);
      if |Values(rows, column)| == 1 {
        forall v | v in Values(rows, column)
          ensures v == first
        {
          assert |Values(rows, column) - {first}| == 0;
        }
        assert forall i :: 0 <= i < |rows| ==> Text(rows[i], column) in Values(rows, column);
      }
      if OneValue(rows, column) {
        assert Values(rows, column) == {first};
      }
    }
  }

  /** All rows name the same reviewer and the same time. */
  ghost predicate Shared(rows: seq<Row>) {
    OneValue(rows, "reviewer_id") && OneValue(rows, "reviewed_at")
  }

  datatype ReviewError = Refused(refusal: Refusal) | NotShared

  /** Both worksheets are validated, and share reviewer and time. */
  method ValidateBoth(groups: seq<Group>, atomicFile: seq<Row>, compositeFile: seq<Row>, clock: Clock) returns (r: Result<(), ReviewError>)
    requires HaveRelation(groups)
    ensures r.Ok? <==>
            && Accepted(atomicFile, "relation_id", AtomicEntries(groups), clock)
            && Accepted(compositeFile, "group_id", CompositeEntries(groups), clock)
            && Shared(atomicFile + compositeFile)
  {
    var atomic := ValidatedRows(atomicFile, AtomicRows(groups), "relation_id", clock);
    if atomic.Err? {
      return Err(Refused(atomic.error));
    }
    var composite := ValidatedRows(compositeFile, CompositeRows(groups), "group_id", clock);
    if composite.Err? {
      return Err(Refused(composite.error));
    }
    var rows := atomicFile + compositeFile;
    OneValueIff(rows, "reviewer_id");
    OneValueIff(rows, "reviewed_at");
    var reviewers, times := Values(rows, "reviewer_id"), Values(rows, "reviewed_at");
    r := if |reviewers| != 1 || |times| != 1 then Err(NotShared) else Ok(());
  }

  method DecideAll(groups: seq<Group>, atomic: seq<Row>, composite: seq<Row>) returns (decisions: seq<RelationDecision>)
    requires CoversOnce(groups) && Answered(Answers(atomic, composite), groups)
    ensures FollowRows(decisions, groups, Answers(atomic, composite))
  {
    ghost var answers := Answers(atomic, composite);
    AnswersInOrder(atomic, composite);
    DecisionsFollowTheRows(answers, groups);
    decisions := ExpandDecisions(atomic, composite, groups, answers);
  }

  /** The first part of main, up to the decisions. */
  method ReviewRelations(groups: seq<Group>, atomicFile: seq<Row>, compositeFile: seq<Row>, clock: Clock)
    returns (r: Result<seq<RelationDecision>, ReviewError>)
    requires CoversOnce(groups) && HaveRelation(groups)
    ensures r.Ok? <==>
            && Accepted(atomicFile, "relation_id", AtomicEntries(groups), clock)
            && Accepted(compositeFile, "group_id", CompositeEntries(groups), clock)
            && Shared(atomicFile + compositeFile)
    ensures r.Ok? ==> Answered(Answers(atomicFile, compositeFile), groups)
    ensures r.Ok? ==> FollowRows(r.value, groups, Answers(atomicFile, compositeFile))
  {
    var valid := ValidateBoth(groups, atomicFile, compositeFile, clock);
    if valid.Err? {
      return Err(valid.error);
    }
    AcceptedWorksheetsAnswerAll(atomicFile, compositeFile, groups, clock);
    var decisions := DecideAll(groups, atomicFile, compositeFile);
    r := Ok(decisions);
  }
}
