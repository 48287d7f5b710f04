/** Deduplication and enrichment of the inventory, both in place on the row objects. */
module Inventory {
  import opened FirstOccurrence
  import opened GroupBy
  import opened SourceTokens
  import opened InventoryRows

  class InventoryRow {
    const brand: string
    const inputUrl: string
    const candidateUrl: string
    const host: string
    const pageType: PageType
    const relation: RelationToBrand
    var confidence: real
    var source: string
    var title: string
    var collection: CollectionMethod
    var status: string
    var error: string
    var textChars: int
    var usableBrand: bool
    var usablePerception: bool
    var enriched: bool

    constructor (r: Row)
      ensures Data() == r
    {
      brand, inputUrl, candidateUrl, host := r.brand, r.inputUrl, r.candidateUrl, r.host;
      pageType, relation, confidence := r.pageType, r.relation, r.confidence;
      source, title, collection, status, error := r.source, r.title, r.collection, r.status, r.error;
      textChars, usableBrand, usablePerception, enriched := r.textChars, r.usableBrand, r.usablePerception, r.enriched;
    }

    function Data(): Row
      reads this
    {
      Row(brand, inputUrl, candidateUrl, host, pageType, relation, confidence, source, title, collection, status,
          error, textChars, usableBrand, usablePerception, enriched)
    }

    /** The merging part of the deduplication loop. */
    method Absorb(row: InventoryRow)
      requires row != this
      modifies this
      ensures Data() == MergeRow(old(Data()), old(row.Data()))
    {
      AbsorbText(row);
      AbsorbReading(row);
      AbsorbFlags(row);
    }

    method AbsorbText(row: InventoryRow)
      requires row != this
      modifies this`source, this`title
      ensures source == Merged(old(source), row.source)
      ensures title == if old(title) == "" then row.title else old(title)
    {
      source := MergeToken(source, row.source);
      if title == "" && row.title != "" {
        title := row.title;
      }
    }

    method AbsorbFlags(row: InventoryRow)
      requires row != this
      modifies this`usableBrand, this`usablePerception, this`confidence
      ensures usableBrand == (old(usableBrand) || row.usableBrand)
      ensures usablePerception == (old(usablePerception) || row.usablePerception)
      ensures confidence == if row.confidence > old(confidence) then row.confidence else old(confidence)
    {
      usableBrand := usableBrand || row.usableBrand;
      usablePerception := usablePerception || row.usablePerception;
      confidence := if row.confidence > confidence then row.confidence else confidence;
    }

    /** Takes over what was read of the page if this row had not been read itself. */
    method AbsorbReading(row: InventoryRow)
      requires row != this
      modifies this`collection, this`status, this`error, this`textChars
      ensures var taken := if old(collection).NotAttempted? && !row.collection.NotAttempted? then row.Data() else old(Data());
        collection == taken.collection && status == taken.status && error == taken.error && textChars == taken.textChars
    {
      if collection.NotAttempted? && !row.collection.NotAttempted? {
        collection := row.collection;
        status := row.status;
        error := row.error;
        textChars := row.textChars;
      }
    }
  }

  function Snapshot(rows: seq<InventoryRow>): (data: seq<Row>)
    reads rows
    ensures |data| == |rows| && forall i :: 0 <= i < |rows| ==> data[i] == rows[i].Data()
  {
    if rows == [] then [] else Snapshot(rows[..|rows| - 1]) + [rows[|rows| - 1].Data()]
  }

  // ----- dedupe_rows -----

  function ByUrl(normalize: string -> string): Row -> string {
    (r: Row) => normalize(r.candidateUrl)
  }

  /** One merged row for each normalized URL, in order of first occurrence. */
  function Deduplicated(normalize: string -> string, data: seq<Row>): seq<Row> {
    Grouped(ByUrl(normalize), MergeRow, data)
  }

  /** The objects have the values, and the dictionary the objects, of the merge in place. */
  ghost predicate Represents(normalize: string -> string, rows: seq<InventoryRow>, data: seq<Row>, n: nat,
                             merged: map<string, InventoryRow>, g: Groups<Row>)
    requires |rows| == |data|
    reads rows
  {
    && OwnFirsts(ByUrl(normalize), data, n, g)
    && (forall k :: k in merged <==> k in g.first)
    && (forall k :: k in merged ==> merged[k] == rows[g.first[k]])
    && (forall j :: 0 <= j < |rows| ==> rows[j].Data() == Current(ByUrl(normalize), data, g, j))
  }

  ghost predicate DistinctObjects(rows: seq<InventoryRow>) {
    forall i, j :: 0 <= i < j < |rows| ==> rows[i] != rows[j]
  }

  /** The loop body for a key that was seen before. */
  method AbsorbInto(normalize: string -> string, ghost data: seq<Row>, i: nat, rows: seq<InventoryRow>,
                    merged: map<string, InventoryRow>, ghost g: Groups<Row>)
    requires i < |rows| == |data| && Represents(normalize, rows, data, i, merged, g) && DistinctObjects(rows)
    requires normalize(rows[i].candidateUrl) in merged
    modifies rows
    ensures Represents(normalize, rows, data, i + 1, merged, Take(ByUrl(normalize), MergeRow, g, data[i], i))
  {
    ghost var key := ByUrl(normalize);
    TakeChangesOne(key, MergeRow, data, i, g, i);
    ghost var at := g.first[key(data[i])];
    ghost var g' := Take(key, MergeRow, g, data[i], i);
    merged[normalize(rows[i].candidateUrl)].Absorb(rows[i]);
    forall j | 0 <= j < |rows|
      ensures rows[j].Data() == Current(key, data, g', j)
    {
      TakeChangesOne(key, MergeRow, data, i, g, j);
      if j != at {
        assert rows[j] != rows[at];
      }
    }
  }

  /** The loop body for a new key. */
  lemma StartGroup(normalize: string -> string, data: seq<Row>, i: nat, rows: seq<InventoryRow>,
                   merged: map<string, InventoryRow>, g: Groups<Row>)
    requires i < |rows| == |data| && Represents(normalize, rows, data, i, merged, g)
    requires normalize(rows[i].candidateUrl) !in merged
    ensures Represents(normalize, rows, data, i + 1, merged[normalize(rows[i].candidateUrl) := rows[i]],
                       Take(ByUrl(normalize), MergeRow, g, data[i], i))
  {
    TakeChangesOne(ByUrl(normalize), MergeRow, data, i, g, i);
    forall j | 0 <= j < |rows|
      ensures rows[j].Data() == Current(ByUrl(normalize), data, Take(ByUrl(normalize), MergeRow, g, data[i], i), j)
    {
      TakeChangesOne(ByUrl(normalize), MergeRow, data, i, g, j);
    }
  }

  lemma NothingMerged(normalize: string -> string, rows: seq<InventoryRow>, data: seq<Row>)
    requires data == Snapshot(rows)
    ensures LoopAt(normalize, rows, data, 0, map[], [])
  {
  }

  /** What the loop has done after n rows: its dictionary and its key order are those of the fold. */
  ghost predicate LoopAt(normalize: string -> string, rows: seq<InventoryRow>, data: seq<Row>, n: nat,
                         merged: map<string, InventoryRow>, order: seq<string>)
    requires n <= |rows| == |data|
    reads rows
  {
    var g := Fold(ByUrl(normalize), MergeRow, data, n);
    order == g.order && Represents(normalize, rows, data, n, merged, g)
  }

  /** One pass of the loop. */
  method DedupeStep(normalize: string -> string, ghost data: seq<Row>, i: nat, rows: seq<InventoryRow>,
                    merged: map<string, InventoryRow>, order: seq<string>)
    returns (merged': map<string, InventoryRow>, order': seq<string>)
    requires DistinctObjects(rows) && i < |rows| == |data|
    requires LoopAt(normalize, rows, data, i, merged, order)
    modifies rows
    ensures LoopAt(normalize, rows, data, i + 1, merged', order')
  {
    ghost var g := Fold(ByUrl(normalize), MergeRow, data, i);
    var key := normalize(rows[i].candidateUrl);
    TakeChangesOne(ByUrl(normalize), MergeRow, data, i, g, i);
    assert rows[i].Data() == data[i];
    merged', order' := merged, order;
    if key !in merged {
      StartGroup(normalize, data, i, rows, merged, g);
      merged', order' := merged[key := rows[i]], order + [key];
    } else {
      AbsorbInto(normalize, data, i, rows, merged, g);
    }
  }

  method DedupeLoop(normalize: string -> string, ghost data: seq<Row>, rows: seq<InventoryRow>)
    returns (merged: map<string, InventoryRow>, order: seq<string>)
    requires DistinctObjects(rows) && |data| == |rows| && LoopAt(normalize, rows, data, 0, map[], [])
    modifies rows
    ensures LoopAt(normalize, rows, data, |rows|, merged, order)
  {
    merged, order := map[], [];
    for i := 0 to |rows|
      invariant LoopAt(normalize, rows, data, i, merged, order)
    {
      merged, order := DedupeStep(normalize, data, i, rows, merged, order);
    }
  }

  /** What the dictionary holds for the i-th key when the loop is done. */
  lemma ResultRow(normalize: string -> string, rows: seq<InventoryRow>, data: seq<Row>, merged: map<string, InventoryRow>, i: nat)
    requires |rows| == |data|
    requires Represents(normalize, rows, data, |rows|, merged, Fold(ByUrl(normalize), MergeRow, data, |rows|))
    requires i < |Fold(ByUrl(normalize), MergeRow, data, |rows|).order|
    ensures var keys, k := KeysOf(ByUrl(normalize), data), Fold(ByUrl(normalize), MergeRow, data, |rows|).order[i];
      && k in merged && k in keys && merged[k] == rows[FirstIndex(keys, k)]
      && i < |Deduplicated(normalize, data)| && merged[k].Data() == Deduplicated(normalize, data)[i]
  {
    LoopGroups(ByUrl(normalize), MergeRow, data);
    var g := Fold(ByUrl(normalize), MergeRow, data, |rows|);
    assert IsFirst(ByUrl(normalize), data, g, g.first[g.order[i]]);
  }

  lemma OtherRow(normalize: string -> string, rows: seq<InventoryRow>, data: seq<Row>, merged: map<string, InventoryRow>, j: nat)
    requires j < |rows| == |data|
    requires Represents(normalize, rows, data, |rows|, merged, Fold(ByUrl(normalize), MergeRow, data, |rows|))
    requires forall k :: k in Fold(ByUrl(normalize), MergeRow, data, |rows|).order && k in merged ==> merged[k] != rows[j]
    ensures rows[j].Data() == data[j]
  {
    LoopGroups(ByUrl(normalize), MergeRow, data);
    var g, k := Fold(ByUrl(normalize), MergeRow, data, |rows|), normalize(data[j].candidateUrl);
    assert IsFirst(ByUrl(normalize), data, g, j) ==> k in g.order;
  }

  /** The result holds, for each key in order of first occurrence, the first object with that key. */
  ghost predicate KeepsFirstObjects(keys: seq<string>, rows: seq<InventoryRow>, result: seq<InventoryRow>)
    requires |keys| == |rows|
  {
    && |result| == |Firsts(keys)|
    && forall i :: 0 <= i < |result| ==> IsFirstObject(keys, rows, Firsts(keys)[i], result[i])
  }

  ghost predicate IsFirstObject(keys: seq<string>, rows: seq<InventoryRow>, k: string, r: InventoryRow)
    requires |keys| == |rows|
  {
    k in keys && r == rows[FirstIndex(keys, k)]
  }

  /** [merged[key] for key in order] */
  function Lookup(merged: map<string, InventoryRow>, order: seq<string>): (result: seq<InventoryRow>)
    requires forall i :: 0 <= i < |order| ==> order[i] in merged
    ensures |result| == |order| && forall i :: 0 <= i < |order| ==> result[i] == merged[order[i]]
  {
    if order == [] then [] else Lookup(merged, order[..|order| - 1]) + [merged[order[|order| - 1]]]
  }

  lemma ResultObjects(normalize: string -> string, rows: seq<InventoryRow>, data: seq<Row>,
                      merged: map<string, InventoryRow>, order: seq<string>)
    requires |rows| == |data| && LoopAt(normalize, rows, data, |rows|, merged, order)
    ensures forall i :: 0 <= i < |order| ==> order[i] in merged
    ensures KeepsFirstObjects(KeysOf(ByUrl(normalize), data), rows, Lookup(merged, order))
  {
    LoopGroups(ByUrl(normalize), MergeRow, data);
    forall i | 0 <= i < |order|
      ensures order[i] in merged && IsFirstObject(KeysOf(ByUrl(normalize), data), rows, order[i], merged[order[i]])
    {
      ResultRow(normalize, rows, data, merged, i);
    }
  }

  lemma ResultValues(normalize: string -> string, rows: seq<InventoryRow>, data: seq<Row>,
                     merged: map<string, InventoryRow>, order: seq<string>, result: seq<InventoryRow>)
    requires |rows| == |data| && LoopAt(normalize, rows, data, |rows|, merged, order)
    requires forall i :: 0 <= i < |order| ==> order[i] in merged
    requires result == Lookup(merged, order)
    ensures Snapshot(result) == Deduplicated(normalize, data)
  {
    LoopGroups(ByUrl(normalize), MergeRow, data);
    forall i | 0 <= i < |order|
      ensures result[i].Data() == Deduplicated(normalize, data)[i]
    {
      ResultRow(normalize, rows, data, merged, i);
    }
  }

  lemma OtherValues(normalize: string -> string, rows: seq<InventoryRow>, data: seq<Row>,
                    merged: map<string, InventoryRow>, order: seq<string>, result: seq<InventoryRow>)
    requires |rows| == |data| && LoopAt(normalize, rows, data, |rows|, merged, order)
    requires forall i :: 0 <= i < |order| ==> order[i] in merged
    requires result == Lookup(merged, order)
    ensures forall j :: 0 <= j < |rows| && rows[j] !in result ==> rows[j].Data() == data[j]
  {
    forall j | 0 <= j < |rows| && rows[j] !in result
      ensures rows[j].Data() == data[j]
    {
      forall k | k in order
        ensures merged[k] != rows[j]
      {
        var i :| 0 <= i < |order| && order[i] == k;
        assert result[i] == merged[k];
      }
      OtherRow(normalize, rows, data, merged, j);
    }
  }

  /** dedupe_rows: refines the group-by, keeps the first row object of each group, and changes no other object. */
  method DedupeRows(normalize: string -> string, rows: seq<InventoryRow>) returns (result: seq<InventoryRow>)
    requires DistinctObjects(rows)
    modifies rows
    ensures Snapshot(result) == Deduplicated(normalize, old(Snapshot(rows)))
    ensures KeepsFirstObjects(KeysOf(ByUrl(normalize), old(Snapshot(rows))), rows, result)
    ensures forall j :: 0 <= j < |rows| && rows[j] !in result ==> rows[j].Data() == old(rows[j].Data())
  {
    ghost var data := Snapshot(rows);
    NothingMerged(normalize, rows, data);
    var merged, order := DedupeLoop(normalize, data, rows);
    ResultObjects(normalize, rows, data, merged, order);
    result := Lookup(merged, order);
    ResultValues(normalize, rows, data, merged, order, result);
    OtherValues(normalize, rows, data, merged, order, result);
  }
}
