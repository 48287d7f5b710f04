/** Applying completed decisions to work orders: which orders close, and what is counted. */
module AdjudicationApply {
  import opened Collections
  import opened DecisionIds
  import opened DecisionRecords
  import opened Prelude

  datatype Order = Order(
    workOrderId: string, packetId: string, runId: RunId, brandName: string, nextAction: string, requiresRecompute: bool)

  datatype ClosedOrder = ClosedOrder(
    workOrderId: string, packetId: string, runId: RunId, brandName: string,
    decision: string, reviewer: string, rationale: string, requiresRecompute: bool, decisionRecordId: string)

  const PREFIX: string := "intervention:"
  const CONFIRM_ALIAS: string := "confirm_entity_alias_before_promotion"

  function RemovePrefix(s: string, prefix: string): string {
    if prefix <= s then s[|prefix|..] else s
  }

  /** _record_id_for_order */
  function RecordIdForOrder(order: Order): string {
    if order.nextAction == CONFIRM_ALIAS then "entity_alias_confirmation_" + RunText(order.runId)
    else RemovePrefix(order.packetId, PREFIX) + "_" + RunText(order.runId)
  }

  /** _closed_order */
  function CloseOrder(order: Order, d: DecisionRecord): ClosedOrder {
    ClosedOrder(order.workOrderId, order.packetId, order.runId, order.brandName,
                TextOf(d, "decision"), TextOf(d, "reviewer"), TextOf(d, "rationale"),
                order.requiresRecompute || Truthy(d, "requires_recompute"), TextOf(d, "record_id"))
  }

  // ----- looking decisions up -----

  /** The last decision whose text under `key` is `id`. */
  function LastWith(decisions: seq<DecisionRecord>, key: string, id: string): (d: Option<DecisionRecord>)
    ensures d.Some? ==> d.value in decisions && TextOf(d.value, key) == id
    ensures d.None? ==> forall e :: e in decisions ==> TextOf(e, key) != id
  {
    if decisions == [] then None
    else if TextOf(decisions[|decisions| - 1], key) == id then Some(decisions[|decisions| - 1])
    else LastWith(decisions[..|decisions| - 1], key, id)
  }

  /** One of the two lookup dictionaries. */
  method IndexBy(decisions: seq<DecisionRecord>, key: string) returns (index: map<string, DecisionRecord>)
    ensures forall id :: (if id in index then Some(index[id]) else None) == LastWith(decisions, key, id)
  {
    index := map[];
    for i := 0 to |decisions|
      invariant forall id :: (if id in index then Some(index[id]) else None) == LastWith(decisions[..i], key, id)
    {
      assert decisions[..i + 1][..i] == decisions[..i];
      index := index[TextOf(decisions[i], key) := decisions[i]];
    }
    assert decisions[..|decisions|] == decisions;
  }

  /** `a.get(..) or b.get(..)`: an empty decision counts as none. */
  function OrElse(a: Option<DecisionRecord>, b: Option<DecisionRecord>): Option<DecisionRecord> {
    if a.Some? && a.value != map[] then a else if b.Some? && b.value != map[] then b else None
  }

  function DecisionFor(order: Order, decisions: seq<DecisionRecord>): Option<DecisionRecord> {
    OrElse(LastWith(decisions, "work_order_id", order.workOrderId), LastWith(decisions, "record_id", RecordIdForOrder(order)))
  }

  /** If no decision is empty, an order closes exactly if its work-order id or its derived record id has a decision,
      and the last one under its work-order id is preferred. */
  lemma ClosesIffDecided(order: Order, decisions: seq<DecisionRecord>)
    requires map[] !in decisions
    ensures DecisionFor(order, decisions).Some? <==>
            exists d :: d in decisions
              && (TextOf(d, "work_order_id") == order.workOrderId || TextOf(d, "record_id") == RecordIdForOrder(order))
    ensures (exists d :: d in decisions && TextOf(d, "work_order_id") == order.workOrderId) ==>
              DecisionFor(order, decisions) == LastWith(decisions, "work_order_id", order.workOrderId)
  {
  }

  // ----- the split into closed and open orders -----

  /** Which orders close. */
  function Closes(orders: seq<Order>, decisions: seq<DecisionRecord>): (flags: seq<bool>)
    ensures |flags| == |orders| && forall i :: 0 <= i < |orders| ==> flags[i] == DecisionFor(orders[i], decisions).Some?
  {
    seq(|orders|, i requires 0 <= i < |orders| => DecisionFor(orders[i], decisions).Some?)
  }

  ghost predicate ClosedAt(closed: seq<ClosedOrder>, at: seq<nat>, orders: seq<Order>, decisions: seq<DecisionRecord>) {
    && |closed| == |at|
    && forall k :: 0 <= k < |at| ==>
         at[k] < |orders| && DecisionFor(orders[at[k]], decisions).Some?
         && closed[k] == CloseOrder(orders[at[k]], DecisionFor(orders[at[k]], decisions).value)
  }

  ghost predicate OpenAt(open: seq<Order>, at: seq<nat>, orders: seq<Order>) {
    |open| == |at| && forall k :: 0 <= k < |at| ==> at[k] < |orders| && open[k] == orders[at[k]]
  }

  lemma OneMoreClosed(closed: seq<ClosedOrder>, at: seq<nat>, orders: seq<Order>, decisions: seq<DecisionRecord>, i: nat)
    requires ClosedAt(closed, at, orders, decisions) && i < |orders| && DecisionFor(orders[i], decisions).Some?
    ensures ClosedAt(closed + [CloseOrder(orders[i], DecisionFor(orders[i], decisions).value)], at + [i], orders, decisions)
  {
  }

  /** What the loop has done with the first n orders. */
  ghost predicate Split(closed: seq<ClosedOrder>, open: seq<Order>, n: nat, orders: seq<Order>, decisions: seq<DecisionRecord>)
    requires n <= |orders|
  {
    && ClosedAt(closed, Positions(Closes(orders, decisions), n, true), orders, decisions)
    && OpenAt(open, Positions(Closes(orders, decisions), n, false), orders)
  }

  lemma OneMoreOrder(closed: seq<ClosedOrder>, open: seq<Order>, i: nat, orders: seq<Order>, decisions: seq<DecisionRecord>)
    requires i < |orders| && Split(closed, open, i, orders, decisions)
    ensures var d := DecisionFor(orders[i], decisions);
            if d.Some? then Split(closed + [CloseOrder(orders[i], d.value)], open, i + 1, orders, decisions)
            else Split(closed, open + [orders[i]], i + 1, orders, decisions)
  {
    var flags := Closes(orders, decisions);
    if flags[i] {
      OneMoreClosed(closed, Positions(flags, i, true), orders, decisions, i);
    }
  }

  /** The loop of apply_adjudication_decisions. */
  method Apply(orders: seq<Order>, decisions: seq<DecisionRecord>) returns (closed: seq<ClosedOrder>, open: seq<Order>)
    ensures Split(closed, open, |orders|, orders, decisions)
    ensures |closed| + |open| == |orders|
  {
    var byWorkOrder := IndexBy(decisions, "work_order_id");
    var byRecord := IndexBy(decisions, "record_id");
    closed, open := [], [];
    for i := 0 to |orders|
      invariant Split(closed, open, i, orders, decisions)
    {
      OneMoreOrder(closed, open, i, orders, decisions);
      var decision := LookUp(orders[i], byWorkOrder, byRecord, decisions);
      if decision.Some? {
        closed := closed + [CloseOrder(orders[i], decision.value)];
      } else {
        open := open + [orders[i]];
      }
    }
    SidesAddUp(Closes(orders, decisions), |orders|);
  }

  method LookUp(order: Order, byWorkOrder: map<string, DecisionRecord>, byRecord: map<string, DecisionRecord>,
                ghost decisions: seq<DecisionRecord>)
    returns (decision: Option<DecisionRecord>)
    requires forall id :: (if id in byWorkOrder then Some(byWorkOrder[id]) else None) == LastWith(decisions, "work_order_id", id)
    requires forall id :: (if id in byRecord then Some(byRecord[id]) else None) == LastWith(decisions, "record_id", id)
    ensures decision == DecisionFor(order, decisions)
  {
    var recordId := RecordIdForOrder(order);
    decision := OrElse(if order.workOrderId in byWorkOrder then Some(byWorkOrder[order.workOrderId]) else None,
                       if recordId in byRecord then Some(byRecord[recordId]) else None);
  }

  datatype Status = RecomputeRequired | PendingDecisions | AllClosed

  datatype ApplyRow = ApplyRow(
    closed: seq<ClosedOrder>, open: seq<Order>, requiresRecompute: bool, recomputeRunIds: set<int>,
    counts: map<string, nat>, status: Status)

  // ----- counts -----

  function CountOf(closed: seq<ClosedOrder>, decision: string): nat {
    if closed == [] then 0
    else CountOf(closed[..|closed| - 1], decision) + if closed[|closed| - 1].decision == decision then 1 else 0
  }

  /** _decision_counts: how often each decision was applied; the counts add up to the closed orders. */
  method DecisionCounts(closed: seq<ClosedOrder>) returns (counts: map<string, nat>)
    ensures forall d :: CountIn(counts, d) == CountOf(closed, d)
    ensures Total(counts) == |closed|
  {
    counts := map[];
    for i := 0 to |closed|
      invariant forall d :: CountIn(counts, d) == CountOf(closed[..i], d)
      invariant Total(counts) == i
    {
      assert closed[..i + 1][..i] == closed[..i];
      var decision := closed[i].decision;
      TotalAfterAdding(counts, decision, 1);
      counts := Adding(counts, decision, 1);
    }
    assert closed[..|closed|] == closed;
  }

  /** apply_adjudication_decisions, for a report whose run id is `runId`. */
  method ApplyDecisions(orders: seq<Order>, decisions: seq<DecisionRecord>, runId: RunId) returns (row: ApplyRow)
    ensures Split(row.closed, row.open, |orders|, orders, decisions)
    ensures |row.closed| + |row.open| == |orders|
    ensures Total(row.counts) == |row.closed| && forall d :: CountIn(row.counts, d) == CountOf(row.closed, d)
    ensures row.requiresRecompute <==> exists c :: c in row.closed && c.requiresRecompute
    ensures row.recomputeRunIds == if row.requiresRecompute && runId.Run? then {runId.id} else {}
    ensures row.status == AllClosed <==> row.open == [] && !row.requiresRecompute
    ensures row.status == RecomputeRequired <==> row.requiresRecompute
  {
    var closed, open := Apply(orders, decisions);
    var counts := DecisionCounts(closed);
    var recompute := exists c :: c in closed && c.requiresRecompute;
    row := ApplyRow(closed, open, recompute, if recompute && runId.Run? then {runId.id} else {}, counts,
                    if recompute then RecomputeRequired else if open != [] then PendingDecisions else AllClosed);
  }

  // ----- the manifest over several reports -----

  datatype Manifest = Manifest(closedCount: nat, openCount: nat, recomputeRunIds: set<int>, counts: map<string, nat>)

  function ClosedOver(rows: seq<ApplyRow>, n: nat): nat
    requires n <= |rows|
  {
    if n == 0 then 0 else ClosedOver(rows, n - 1) + |rows[n - 1].closed|
  }

  function OpenOver(rows: seq<ApplyRow>, n: nat): nat
    requires n <= |rows|
  {
    if n == 0 then 0 else OpenOver(rows, n - 1) + |rows[n - 1].open|
  }

  function CountOver(rows: seq<ApplyRow>, n: nat, decision: string): nat
    requires n <= |rows|
  {
    if n == 0 then 0 else CountOver(rows, n - 1, decision) + CountIn(rows[n - 1].counts, decision)
  }

  function RecomputeOver(rows: seq<ApplyRow>, n: nat): (ids: set<int>)
    requires n <= |rows|
    ensures forall id :: id in ids <==> exists i :: 0 <= i < n && id in rows[i].recomputeRunIds
  {
    if n == 0 then {} else RecomputeOver(rows, n - 1) + rows[n - 1].recomputeRunIds
  }

  /** build_apply_manifest: nothing is lost between the rows and the totals. */
  method BuildApplyManifest(rows: seq<ApplyRow>) returns (m: Manifest)
    requires forall r :: r in rows ==> Total(r.counts) == |r.closed|
    ensures m.closedCount == ClosedOver(rows, |rows|) == Total(m.counts)
    ensures m.openCount == OpenOver(rows, |rows|)
    ensures forall d :: CountIn(m.counts, d) == CountOver(rows, |rows|, d)
    ensures m.recomputeRunIds == RecomputeOver(rows, |rows|)
  {
    m := Manifest(0, 0, {}, map[]);
    for i := 0 to |rows|
      invariant m.closedCount == ClosedOver(rows, i) == Total(m.counts)
      invariant m.openCount == OpenOver(rows, i)
      invariant forall d :: CountIn(m.counts, d) == CountOver(rows, i, d)
      invariant m.recomputeRunIds == RecomputeOver(rows, i)
    {
      var counts := AddCounts(m.counts, rows[i].counts);
      m := Manifest(m.closedCount + |rows[i].closed|, m.openCount + |rows[i].open|,
                    m.recomputeRunIds + rows[i].recomputeRunIds, counts);
    }
  }
}
