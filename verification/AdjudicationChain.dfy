/** From readiness rows to work orders and board records, and from completed records back to the work orders they close. */
module AdjudicationChain {
  import opened AdjudicationApply
  import opened DecisionIds
  import opened DecisionRecords
  import opened FirstOccurrence
  import opened GroupBy
  import opened InterventionBoard
  import opened Prelude

  /** _readiness_intervention_type, the branches after the first four. */
  function LaterType(nextAction: string): string {
    if nextAction == "add_source_url_or_remove_material_quote" then "quote_source_contract"
    else if nextAction == "review_material_loss_before_promotion" then "material_loss_review"
    else if nextAction == "reduce_review_pressure_before_promotion" then "review_pressure_reduction"
    else if nextAction == "candidate_after_contract" || nextAction == "candidate_without_contract_effect" then "none"
    else "unknown"
  }

  /** _readiness_intervention_type */
  function InterventionType(nextAction: string): string {
    if nextAction == "manual_audit_projected_material_changes" then "material_audit"
    else if nextAction == "resolve_entity_boundary_before_promotion" then "entity_boundary"
    else if nextAction == "exclude_placeholder_entity_from_promotion" then "placeholder_exclusion"
    else if nextAction == CONFIRM_ALIAS then ALIAS_CONFIRMATION
    else LaterType(nextAction)
  }

  const ALIAS_CONFIRMATION: string := "entity_alias_confirmation"

  lemma LaterNamesArePlain()
    ensures Plain("quote_source_contract") && Plain("material_loss_review") && Plain("none")
  {
  }

  lemma LastNamesArePlain()
    ensures Plain("review_pressure_reduction") && Plain("unknown")
  {
  }

  lemma LaterTypesArePlain(nextAction: string)
    ensures Plain(LaterType(nextAction)) && LaterType(nextAction) != "" && LaterType(nextAction) != ALIAS_CONFIRMATION
  {
    LaterNamesArePlain();
    LastNamesArePlain();
    assert |ALIAS_CONFIRMATION| == 25 && ALIAS_CONFIRMATION[0] == 'e' && "review_pressure_reduction"[0] == 'r';
  }

  lemma FirstNamesArePlain()
    ensures Plain("material_audit") && Plain("entity_boundary")
  {
  }

  lemma NextNamesArePlain()
    ensures Plain("placeholder_exclusion") && Plain(ALIAS_CONFIRMATION)
  {
  }

  lemma FirstNamesAreNotAlias()
    ensures "material_audit" != ALIAS_CONFIRMATION && "entity_boundary" != ALIAS_CONFIRMATION
    ensures "placeholder_exclusion" != ALIAS_CONFIRMATION
  {
  }

  /** Every type is non-empty and free of colon and slash, and only the action that asks to confirm an alias has the alias type. */
  lemma TypesArePlain(nextAction: string)
    ensures Plain(InterventionType(nextAction)) && InterventionType(nextAction) != ""
    ensures InterventionType(nextAction) == ALIAS_CONFIRMATION <==> nextAction == CONFIRM_ALIAS
  {
    LaterTypesArePlain(nextAction);
    FirstNamesArePlain();
    NextNamesArePlain();
    FirstNamesAreNotAlias();
  }

  /** Which action has which type; every other action has the type "unknown". */
  lemma FirstTypes()
    ensures InterventionType("manual_audit_projected_material_changes") == "material_audit"
    ensures InterventionType("resolve_entity_boundary_before_promotion") == "entity_boundary"
    ensures InterventionType("exclude_placeholder_entity_from_promotion") == "placeholder_exclusion"
    ensures InterventionType("confirm_entity_alias_before_promotion") == "entity_alias_confirmation"
  {
  }

  lemma LaterTypes()
    ensures LaterType("add_source_url_or_remove_material_quote") == "quote_source_contract"
    ensures LaterType("review_material_loss_before_promotion") == "material_loss_review"
    ensures LaterType("reduce_review_pressure_before_promotion") == "review_pressure_reduction"
    ensures LaterType("candidate_after_contract") == LaterType("candidate_without_contract_effect") == "none"
  {
  }

  /** The actions of the first four types are not those of the others. */
  lemma LaterActionsComeLater(nextAction: string)
    requires nextAction in LATER_ACTIONS
    ensures InterventionType(nextAction) == LaterType(nextAction)
  {
  }

  const LATER_ACTIONS: set<string> := {
    "add_source_url_or_remove_material_quote", "review_material_loss_before_promotion", "reduce_review_pressure_before_promotion",
    "candidate_after_contract", "candidate_without_contract_effect"
  }
  const FIRST_ACTIONS: set<string> := {
    "manual_audit_projected_material_changes", "resolve_entity_boundary_before_promotion",
    "exclude_placeholder_entity_from_promotion", "confirm_entity_alias_before_promotion"
  }

  lemma OtherActionsAreUnknown(nextAction: string)
    requires nextAction !in FIRST_ACTIONS && nextAction !in LATER_ACTIONS
    ensures InterventionType(nextAction) == "unknown"
  {
  }

  datatype ReadinessRow = ReadinessRow(run: PacketRun, humanRequired: bool)
  datatype Profile = Profile(promotion: string, allowed: seq<string>, required: seq<string>)

  function RowType(row: ReadinessRow): string {
    InterventionType(row.run.nextAction)
  }

  /** _intervention_packet, without its statistics. */
  function PacketOf(kind: string, rows: seq<ReadinessRow>, profiles: string -> Profile): Packet {
    var profile := profiles(kind);
    Packet(PREFIX + kind, kind, profile.promotion, profile.allowed, profile.required,
           exists row :: row in rows && row.humanRequired,
           seq(|rows|, i requires 0 <= i < |rows| => rows[i].run))
  }

  /** _intervention_packets, before they are sorted: one packet for each type that occurs. */
  function PacketsOf(rows: seq<ReadinessRow>, profiles: string -> Profile): seq<Packet> {
    var kinds := Firsts(KeysOf(RowType, rows));
    seq(|kinds|, i requires 0 <= i < |kinds| => PacketOf(kinds[i], Group(RowType, rows, kinds[i]), profiles))
  }

  /** What the rest of the chain needs of a packet. */
  ghost predicate FromReadiness(p: Packet) {
    && p.packetId == PREFIX + p.kind && p.kind != "" && Plain(p.kind)
    && forall run :: run in p.runs ==> InterventionType(run.nextAction) == p.kind
  }

  lemma PacketsAreFromReadiness(rows: seq<ReadinessRow>, profiles: string -> Profile, p: Packet)
    requires p in PacketsOf(rows, profiles)
    ensures FromReadiness(p) && p.runs != []
  {
    var kinds := Firsts(KeysOf(RowType, rows));
    FirstsAreDistinctAndOrdered(KeysOf(RowType, rows));
    var i :| 0 <= i < |kinds| && p == PacketOf(kinds[i], Group(RowType, rows, kinds[i]), profiles);
    var group := Group(RowType, rows, kinds[i]);
    GroupMembers(RowType, rows, kinds[i]);
    assert kinds[i] in KeysOf(RowType, rows);
    TypesArePlain(group[0].run.nextAction);
    assert RowType(group[0]) == kinds[i];
    forall run | run in p.runs
      ensures InterventionType(run.nextAction) == p.kind
    {
      var j :| 0 <= j < |p.runs| && p.runs[j] == run;
      assert group[j] in group;
    }
  }

  // ----- work orders -----

  function OrderOf(p: Packet, run: PacketRun): Order {
    Order(WorkOrderId(KindOf(p), run.runId), p.packetId, run.runId, run.brandName, run.nextAction, p.promotion == "recompute_required")
  }

  /** One order for each of the first n runs that has an id. */
  function OrdersFor(runs: seq<PacketRun>, orderFor: PacketRun -> Order, n: nat): seq<Order>
    requires n <= |runs|
  {
    if n == 0 then []
    else if runs[n - 1].runId.NoRun? then OrdersFor(runs, orderFor, n - 1)
    else OrdersFor(runs, orderFor, n - 1) + [orderFor(runs[n - 1])]
  }

  function OwnOrders(p: Packet): seq<Order> {
    OrdersFor(p.runs, run => OrderOf(p, run), |p.runs|)
  }

  /** _work_orders, before they are sorted. */
  function WorkOrdersOf(packets: seq<Packet>): seq<Order> {
    if packets == [] then []
    else
      var front, last := WorkOrdersOf(packets[..|packets| - 1]), packets[|packets| - 1];
      if last.humanRequired then front + OwnOrders(last) else front
  }

  lemma {:induction false} OrderIsForARun(runs: seq<PacketRun>, orderFor: PacketRun -> Order, n: nat, order: Order) returns (run: PacketRun)
    requires n <= |runs| && order in OrdersFor(runs, orderFor, n)
    ensures run in runs && run.runId.Run? && order == orderFor(run)
  {
    if order in OrdersFor(runs, orderFor, n - 1) {
      run := OrderIsForARun(runs, orderFor, n - 1, order);
    } else {
      run := runs[n - 1];
    }
  }

  lemma {:induction false} RunHasItsOrder(runs: seq<PacketRun>, orderFor: PacketRun -> Order, n: nat, i: nat)
    requires i < n <= |runs| && runs[i].runId.Run?
    ensures orderFor(runs[i]) in OrdersFor(runs, orderFor, n)
  {
    if i < n - 1 {
      RunHasItsOrder(runs, orderFor, n - 1, i);
    }
  }

  lemma OwnOrderHasRun(p: Packet, order: Order) returns (run: PacketRun)
    requires order in OwnOrders(p)
    ensures run in p.runs && run.runId.Run? && order == OrderOf(p, run)
  {
    run := OrderIsForARun(p.runs, run => OrderOf(p, run), |p.runs|, order);
  }

  lemma RunHasOwnOrder(p: Packet, i: nat)
    requires i < |p.runs| && p.runs[i].runId.Run?
    ensures OrderOf(p, p.runs[i]) in OwnOrders(p)
  {
    RunHasItsOrder(p.runs, run => OrderOf(p, run), |p.runs|, i);
  }

  lemma {:induction false} OrderHasRun(packets: seq<Packet>, order: Order) returns (p: Packet, run: PacketRun)
    requires order in WorkOrdersOf(packets)
    ensures p in packets && p.humanRequired && run in p.runs && run.runId.Run? && order == OrderOf(p, run)
  {
    var front, last := packets[..|packets| - 1], packets[|packets| - 1];
    if order in WorkOrdersOf(front) {
      p, run := OrderHasRun(front, order);
    } else {
      p := last;
      run := OwnOrderHasRun(last, order);
    }
  }

  lemma {:induction false} RunHasOrder(packets: seq<Packet>, p: Packet, i: nat)
    requires p in packets && p.humanRequired && i < |p.runs| && p.runs[i].runId.Run?
    ensures OrderOf(p, p.runs[i]) in WorkOrdersOf(packets)
  {
    var front, last := packets[..|packets| - 1], packets[|packets| - 1];
    if p in front {
      RunHasOrder(front, p, i);
    } else {
      RunHasOwnOrder(p, i);
    }
  }

  lemma {:induction false} RowIsInItsGroup(rows: seq<ReadinessRow>, row: ReadinessRow)
    requires row in rows
    ensures row in Group(RowType, rows, RowType(row)) && RowType(row) in KeysOf(RowType, rows)
  {
    var i :| 0 <= i < |rows| && rows[i] == row;
    assert KeysOf(RowType, rows)[i] == RowType(row);
    var front := rows[..|rows| - 1];
    if row in front {
      RowIsInItsGroup(front, row);
    }
  }

  /** Every readiness row that needs a human and has a run id gets a work order. */
  lemma EveryHumanRowHasAnOrder(rows: seq<ReadinessRow>, profiles: string -> Profile, row: ReadinessRow) returns (p: Packet)
    requires row in rows && row.humanRequired && row.run.runId.Run?
    ensures p in PacketsOf(rows, profiles) && p.kind == RowType(row) && row.run in p.runs
    ensures OrderOf(p, row.run) in WorkOrdersOf(PacketsOf(rows, profiles))
  {
    var kinds := Firsts(KeysOf(RowType, rows));
    FirstsAreDistinctAndOrdered(KeysOf(RowType, rows));
    RowIsInItsGroup(rows, row);
    var group := Group(RowType, rows, RowType(row));
    var i :| 0 <= i < |kinds| && kinds[i] == RowType(row);
    p := PacketOf(kinds[i], group, profiles);
    assert PacketsOf(rows, profiles)[i] == p;
    var j :| 0 <= j < |group| && group[j] == row;
    assert p.runs[j] == row.run;
    RunHasOrder(PacketsOf(rows, profiles), p, j);
  }

  /** The order and the card of a readiness row show the row, and what the profile of its type prescribes. */
  lemma OrderAndCardShowTheRow(rows: seq<ReadinessRow>, profiles: string -> Profile, row: ReadinessRow, urlKey: string -> string)
    returns (p: Packet, order: Order, card: Card)
    requires row in rows && row.humanRequired && row.run.runId.Run?
    ensures order in WorkOrdersOf(PacketsOf(rows, profiles)) && card in CardsOf(PacketsOf(rows, profiles), urlKey)
    ensures p in PacketsOf(rows, profiles) && order == OrderOf(p, row.run) && card == CardOf(p, row.run, urlKey)
    ensures var kind := RowType(row); var profile := profiles(kind);
      && order.workOrderId == card.workOrderId == WorkOrderId(kind, row.run.runId) && card.recordId == RecordId(kind, row.run.runId)
      && order.packetId == card.packetId == "intervention:" + kind && card.kind == kind
      && order.runId == card.runId == row.run.runId && order.brandName == card.brandName == row.run.brandName
      && order.nextAction == card.nextAction == row.run.nextAction
      && card.promotion == profile.promotion && card.allowed == profile.allowed && card.required == profile.required
      && (order.requiresRecompute <==> profile.promotion == "recompute_required")
  {
    TypesArePlain(row.run.nextAction);
    p := EveryHumanRowHasAnOrder(rows, profiles, row);
    order, card := OrderOf(p, row.run), CardOf(p, row.run, urlKey);
    var j :| 0 <= j < |p.runs| && p.runs[j] == row.run;
    EveryRunHasItsCard(PacketsOf(rows, profiles), urlKey, p, j);
    var i :| 0 <= i < |PacketsOf(rows, profiles)| && PacketsOf(rows, profiles)[i] == p;
  }

  // ----- decisions about board records -----

  // A board record and the decision that was completed for it.
  datatype Decided = Decided(packet: Packet, run: PacketRun, decision: DecisionRecord)

  /** The decision is non-empty and still carries the ids of the card. */
  ghost predicate CarriesIds(e: Decided) {
    var kind := KindOf(e.packet);
    && e.decision != map[]
    && TextOf(e.decision, "work_order_id") == WorkOrderId(kind, e.run.runId)
    && TextOf(e.decision, "record_id") == RecordId(kind, e.run.runId)
  }

  /** Completing a board record yields such a decision, unless other ids are given on the command line. */
  method CompleteCard(packet: Packet, run: PacketRun, urlKey: string -> string, shown: map<string, string>,
                      decision: string, reviewer: string, rationale: string, given: map<string, string>)
    returns (r: Result<DecisionRecord, Refusal>)
    ensures r.Ok? ==> decision in packet.allowed && TextOf(r.value, "decision") == decision
    ensures r.Ok? && "record_id" !in given && "work_order_id" !in given ==> CarriesIds(Decided(packet, run, r.value))
  {
    var card := CardOf(packet, run, urlKey);
    var record := RecordOf(card, shown);
    r := BuildDecisionRecord(record, decision, reviewer, rationale, given);
    if r.Ok? {
      IdsSurviveIff(r.value, record, decision, reviewer, rationale, given);
      if "record_id" !in given && "work_order_id" !in given {
        BoardRecordKeepsIds(card, shown, given);
      }
    }
  }

  /** What a closed order reports of a decision completed for this record: decision, reviewer and rationale as given,
      a recomputation if the order or the record asks for one, and the record's id. */
  lemma ClosedOrderReportsTheDecision(order: Order, d: DecisionRecord, record: PendingRecord,
                                      decision: string, reviewer: string, rationale: string, given: map<string, string>)
    requires FilledIn(d, NamesIn(record.required), record, decision, reviewer, rationale, given)
    ensures var closed := CloseOrder(order, d);
      && closed.decision == decision && closed.reviewer == reviewer && closed.rationale == rationale
      && closed.workOrderId == order.workOrderId && closed.packetId == order.packetId && closed.runId == order.runId
      && ("requires_recompute" !in record.required ==> closed.requiresRecompute == (order.requiresRecompute || record.requiresRecompute))
      && ("requires_recompute" in record.required ==>
            closed.requiresRecompute == (order.requiresRecompute || DefaultFieldValue("requires_recompute", record, given) != ""))
      && (KeepsIds(record, given) ==> closed.decisionRecordId == record.recordId)
  {
    IdsSurviveIff(d, record, decision, reviewer, rationale, given);
    assert "requires_recompute" in NamesIn(record.required) <==> "requires_recompute" in record.required;
    assert "requires_recompute" in d;
  }

  function DecisionsOf(all: seq<Decided>): (ds: seq<DecisionRecord>)
    ensures |ds| == |all| && forall i :: 0 <= i < |all| ==> ds[i] == all[i].decision
  {
    seq(|all|, i requires 0 <= i < |all| => all[i].decision)
  }

  /** The last decision about this type and run. */
  ghost function LastAbout(all: seq<Decided>, kind: string, run: RunId): Option<DecisionRecord> {
    if all == [] then None
    else
      var last := all[|all| - 1];
      if KindOf(last.packet) == kind && last.run.runId == run then Some(last.decision)
      else LastAbout(all[..|all| - 1], kind, run)
  }

  lemma {:induction false} LastAboutIff(all: seq<Decided>, kind: string, run: RunId)
    ensures LastAbout(all, kind, run).Some? <==> exists e :: e in all && KindOf(e.packet) == kind && e.run.runId == run
    ensures LastAbout(all, kind, run).Some? ==> exists e :: e in all && e.decision == LastAbout(all, kind, run).value
  {
    if all != [] {
      LastAboutIff(all[..|all| - 1], kind, run);
      assert forall e :: e in all <==> e in all[..|all| - 1] || e == all[|all| - 1];
    }
  }

  /** A lookup whose key fits exactly the decisions about one type and run finds the last of them. */
  lemma {:induction false} LookupFindsLast(all: seq<Decided>, key: string, id: string, kind: string, run: RunId)
    requires forall e :: e in all ==> (TextOf(e.decision, key) == id <==> KindOf(e.packet) == kind && e.run.runId == run)
    ensures LastWith(DecisionsOf(all), key, id) == LastAbout(all, kind, run)
  {
    if all != [] {
      var front, last := all[..|all| - 1], all[|all| - 1];
      LookupFindsLast(front, key, id, kind, run);
      assert last in all;
      assert DecisionsOf(all)[..|front|] == DecisionsOf(front);
    }
  }

  lemma WorkOrderLookup(all: seq<Decided>, kind: string, run: RunId)
    requires forall e :: e in all ==> CarriesIds(e)
    ensures LastWith(DecisionsOf(all), "work_order_id", WorkOrderId(kind, run)) == LastAbout(all, kind, run)
  {
    forall e | e in all
      ensures TextOf(e.decision, "work_order_id") == WorkOrderId(kind, run) <==> KindOf(e.packet) == kind && e.run.runId == run
    {
      WorkOrderIdsAreDistinct(KindOf(e.packet), e.run.runId, kind, run);
    }
    LookupFindsLast(all, "work_order_id", WorkOrderId(kind, run), kind, run);
  }

  /** Looking up by record id finds the same decision, as long as the types are plain. */
  lemma RecordLookup(all: seq<Decided>, kind: string, run: RunId)
    requires Plain(kind) && forall e :: e in all ==> CarriesIds(e) && Plain(KindOf(e.packet))
    ensures LastWith(DecisionsOf(all), "record_id", RecordId(kind, run)) == LastAbout(all, kind, run)
  {
    forall e | e in all
      ensures TextOf(e.decision, "record_id") == RecordId(kind, run) <==> KindOf(e.packet) == kind && e.run.runId == run
    {
      RecordIdsAreDistinct(KindOf(e.packet), e.run.runId, kind, run);
    }
    LookupFindsLast(all, "record_id", RecordId(kind, run), kind, run);
  }

  lemma PrefixRemoved(kind: string)
    ensures RemovePrefix(PREFIX + kind, PREFIX) == kind
  {
  }

  /** The record id derived from a work order is the id of the board record of the same type and run. */
  lemma DerivedRecordId(p: Packet, run: PacketRun)
    requires FromReadiness(p) && run in p.runs
    ensures RecordIdForOrder(OrderOf(p, run)) == RecordId(KindOf(p), run.runId)
  {
    RecordIdParts(p.kind, run.runId);
    PlainIsKept(p.kind);
    PrefixRemoved(p.kind);
    var kind := InterventionType(run.nextAction);
    assert kind == p.kind;
    TypesArePlain(run.nextAction);
    assert "entity_alias_confirmation_" == ALIAS_CONFIRMATION + "_";
  }

  /** End to end: a work order closes exactly if a decision was completed for a record of its type and run,
      in whichever report that record was, and it is closed by the last such decision. */
  lemma OrderClosesIffItsRunIsDecided(packets: seq<Packet>, order: Order, all: seq<Decided>)
    requires forall p :: p in packets ==> FromReadiness(p)
    requires forall e :: e in all ==> FromReadiness(e.packet) && CarriesIds(e)
    requires order in WorkOrdersOf(packets)
    ensures exists p, run :: p in packets && run in p.runs && order == OrderOf(p, run)
              && DecisionFor(order, DecisionsOf(all)) == LastAbout(all, p.kind, run.runId)
              && (DecisionFor(order, DecisionsOf(all)).Some? <==>
                  exists e :: e in all && e.packet.kind == p.kind && e.run.runId == run.runId)
  {
    var p, run := OrderHasRun(packets, order);
    DerivedRecordId(p, run);
    WorkOrderLookup(all, KindOf(p), run.runId);
    RecordLookup(all, KindOf(p), run.runId);
    LastAboutIff(all, KindOf(p), run.runId);
  }

  lemma FitsIff(e: Decided, p: Packet, run: PacketRun)
    requires FromReadiness(p) && run in p.runs && CarriesIds(e)
    ensures TextOf(e.decision, "work_order_id") == WorkOrderId(p.kind, run.runId)
            || TextOf(e.decision, "record_id") == RecordId(p.kind, run.runId)
            <==> Sanitized(KindOf(e.packet)) == p.kind && e.run.runId == run.runId
  {
    WorkOrderIdsAreDistinct(KindOf(e.packet), e.run.runId, p.kind, run.runId);
    RecordIdsCollideIff(KindOf(e.packet), e.run.runId, p.kind, run.runId);
    PlainIsKept(p.kind);
  }

  /** With arbitrary types on the board, an order is closed exactly by decisions about its run and any type that
      becomes the order's type when colons and slashes are replaced, so possibly by a decision about another type. */
  lemma ClosesIffSanitizedTypeFits(p: Packet, run: PacketRun, all: seq<Decided>)
    requires FromReadiness(p) && run in p.runs && forall e :: e in all ==> CarriesIds(e)
    ensures DecisionFor(OrderOf(p, run), DecisionsOf(all)).Some? <==>
            exists e :: e in all && Sanitized(KindOf(e.packet)) == p.kind && e.run.runId == run.runId
  {
    var order, ds := OrderOf(p, run), DecisionsOf(all);
    DerivedRecordId(p, run);
    forall e | e in all
      ensures TextOf(e.decision, "work_order_id") == order.workOrderId || TextOf(e.decision, "record_id") == RecordIdForOrder(order)
              <==> Sanitized(KindOf(e.packet)) == p.kind && e.run.runId == run.runId
    {
      FitsIff(e, p, run);
    }
    forall d | d in ds
      ensures d != map[] && exists e :: e in all && e.decision == d
    {
      var i :| 0 <= i < |ds| && ds[i] == d;
      assert all[i] in all;
    }
    forall e | e in all
      ensures e.decision in ds
    {
      var i :| 0 <= i < |all| && all[i] == e;
      assert ds[i] == e.decision;
    }
    ClosesIffDecided(order, ds);
  }
}
