/** The operator board: one card and one pending record for every run of every intervention packet. */
module InterventionBoard {
  import opened DecisionIds
  import opened DecisionRecords
  import opened DistinctTexts
  import opened FirstOccurrence
  import opened GroupBy

  datatype ReviewItem = ReviewItem(url: string, field: string)

  datatype PacketRun = PacketRun(
    runId: RunId, brandName: string, nextAction: string,
    examples: seq<ReviewItem>, overlaps: seq<ReviewItem>, changed: seq<ReviewItem>)

  datatype Packet = Packet(
    packetId: string, kind: string, promotion: string, allowed: seq<string>, required: seq<string>,
    humanRequired: bool, runs: seq<PacketRun>)

  datatype Card = Card(
    recordId: string, workOrderId: string, packetId: string, runId: RunId, brandName: string, kind: string,
    nextAction: string, promotion: string, allowed: seq<string>, required: seq<string>,
    reviewUrls: seq<string>, affectedFields: seq<string>)

  function Urls(items: seq<ReviewItem>): (r: seq<string>)
    ensures |r| == |items|
  {
    seq(|items|, i requires 0 <= i < |items| => items[i].url)
  }

  function Fields(items: seq<ReviewItem>): (r: seq<string>)
    ensures |r| == |items|
  {
    seq(|items|, i requires 0 <= i < |items| => items[i].field)
  }

  /** _review_urls: over both groups, the first URL for each key. */
  method ReviewUrls(examples: seq<ReviewItem>, overlaps: seq<ReviewItem>, urlKey: string -> string) returns (urls: seq<string>)
    ensures urls == FirstOfEachKey(urlKey, Stripped(Urls(examples) + Urls(overlaps)))
    ensures KeysOf(urlKey, urls) == Firsts(KeysOf(urlKey, Stripped(Urls(examples) + Urls(overlaps))))
  {
    OneForEachKey(urlKey, Stripped(Urls(examples) + Urls(overlaps)));
    urls := KeepFirst(Urls(examples) + Urls(overlaps), urlKey);
  }

  /** _affected_material_fields */
  method AffectedMaterialFields(items: seq<ReviewItem>) returns (fields: seq<string>)
    ensures fields == Firsts(Stripped(Fields(items)))
  {
    fields := Unique(Fields(items));
  }

  function KindOf(packet: Packet): string {
    if packet.kind == "" then "unknown" else packet.kind
  }

  /** _card */
  function CardOf(packet: Packet, run: PacketRun, urlKey: string -> string): Card {
    var kind, overlapping := KindOf(packet), Firsts(Stripped(Fields(run.overlaps)));
    Card(RecordId(kind, run.runId), WorkOrderId(kind, run.runId), packet.packetId, run.runId, run.brandName, kind,
         run.nextAction, packet.promotion, packet.allowed, packet.required,
         FirstOfEachKey(urlKey, Stripped(Urls(run.examples) + Urls(run.overlaps))),
         if overlapping != [] then overlapping else Firsts(Stripped(Fields(run.changed))))
  }

  /** _record. The text of the fields that hold lists is whatever `shown` gives for their names. */
  function RecordOf(card: Card, shown: map<string, string>): PendingRecord {
    var recompute := card.promotion == "recompute_required";
    PendingRecord(card.recordId, card.workOrderId, card.allowed, card.required, recompute,
                  card.reviewUrls, card.affectedFields, card.runId, NoRun,
                  shown["record_id" := card.recordId]["work_order_id" := card.workOrderId]["status" := "pending_decision"]
                       ["intervention_type" := card.kind]["recommended_action" := card.nextAction]
                       ["requires_recompute" := if recompute then "True" else ""],
                  map[])
  }

  function OwnCards(packet: Packet, urlKey: string -> string): (cards: seq<Card>)
    ensures |cards| == |packet.runs| && forall i :: 0 <= i < |cards| ==> cards[i] == CardOf(packet, packet.runs[i], urlKey)
  {
    seq(|packet.runs|, i requires 0 <= i < |packet.runs| => CardOf(packet, packet.runs[i], urlKey))
  }

  /** The cards of the board, in the order of packets and of runs inside a packet. */
  function CardsOf(packets: seq<Packet>, urlKey: string -> string): seq<Card> {
    if packets == [] then [] else CardsOf(packets[..|packets| - 1], urlKey) + OwnCards(packets[|packets| - 1], urlKey)
  }

  lemma {:induction false} EveryRunHasItsCard(packets: seq<Packet>, urlKey: string -> string, p: Packet, i: nat)
    requires p in packets && i < |p.runs|
    ensures CardOf(p, p.runs[i], urlKey) in CardsOf(packets, urlKey)
  {
    var front, last := packets[..|packets| - 1], packets[|packets| - 1];
    if p in front {
      EveryRunHasItsCard(front, urlKey, p, i);
    } else {
      assert OwnCards(p, urlKey)[i] in OwnCards(p, urlKey);
    }
  }

  lemma {:induction false} EveryCardHasItsRun(packets: seq<Packet>, urlKey: string -> string, card: Card) returns (p: Packet, i: nat)
    requires card in CardsOf(packets, urlKey)
    ensures p in packets && i < |p.runs| && card == CardOf(p, p.runs[i], urlKey)
  {
    var front, last := packets[..|packets| - 1], packets[|packets| - 1];
    if card in CardsOf(front, urlKey) {
      p, i := EveryCardHasItsRun(front, urlKey, card);
    } else {
      p := last;
      i :| 0 <= i < |p.runs| && OwnCards(p, urlKey)[i] == card;
    }
  }

  lemma AffectedFieldsStayUnique(run: PacketRun)
    ensures Firsts(Stripped(Firsts(Stripped(Fields(run.overlaps))))) == Firsts(Stripped(Fields(run.overlaps)))
    ensures Firsts(Stripped(Firsts(Stripped(Fields(run.changed))))) == Firsts(Stripped(Fields(run.changed)))
  {
    DistinctStayDistinct(Fields(run.overlaps));
    DistinctStayDistinct(Fields(run.changed));
  }

  /** A completed board record names exactly the card's review URLs, in their order, unless a value is given. */
  lemma ProfileUrlListsTheReviewUrls(packet: Packet, run: PacketRun, urlKey: string -> string, shown: map<string, string>,
                                     given: map<string, string>)
    requires "profile_url" !in given && "affected_material_fields" !in given
    ensures var card := CardOf(packet, run, urlKey);
      && DefaultFieldValue("profile_url", RecordOf(card, shown), given) == CommaJoin(card.reviewUrls)
      && DefaultFieldValue("affected_material_fields", RecordOf(card, shown), given) == CommaJoin(card.affectedFields)
  {
    KeptStayUnique(urlKey, Urls(run.examples) + Urls(run.overlaps));
    AffectedFieldsStayUnique(run);
  }

  /** The fields that a record takes from its card, as they are found by name. */
  lemma RecordShowsItsCard(card: Card, shown: map<string, string>)
    ensures var r := RecordOf(card, shown);
      && r.recordId == card.recordId && r.workOrderId == card.workOrderId
      && r.allowed == card.allowed && r.required == card.required && r.reviewUrls == card.reviewUrls
      && r.affectedFields == card.affectedFields && r.cardRun == card.runId
      && (r.requiresRecompute <==> card.promotion == "recompute_required")
      && Get(r.fields, "record_id") == card.recordId && Get(r.fields, "work_order_id") == card.workOrderId
      && Get(r.fields, "status") == "pending_decision" && Get(r.fields, "intervention_type") == card.kind
      && Get(r.fields, "recommended_action") == card.nextAction
      && (if card.promotion == "recompute_required" then Get(r.fields, "requires_recompute") == "True"
          else Get(r.fields, "requires_recompute") == "")
  {
  }

  /** The affected fields of a card are those of the overlaps, or of the changed fields if there is no overlap. */
  lemma CardListsAffectedFields(packet: Packet, run: PacketRun, urlKey: string -> string)
    ensures var card := CardOf(packet, run, urlKey); var overlapping := Firsts(Stripped(Fields(run.overlaps)));
      && (overlapping != [] ==> card.affectedFields == overlapping)
      && (overlapping == [] ==> card.affectedFields == Firsts(Stripped(Fields(run.changed))))
  {
  }

  /** The ids of a board record survive completion unless other values are given for them. */
  lemma BoardRecordKeepsIds(card: Card, shown: map<string, string>, given: map<string, string>)
    requires "record_id" in given ==> given["record_id"] == card.recordId
    requires "work_order_id" in given ==> given["work_order_id"] == card.workOrderId
    ensures KeepsIds(RecordOf(card, shown), given)
  {
  }
}
