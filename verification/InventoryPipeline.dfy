/** Enrichment within a budget, and what holds of every collected inventory. */
module InventoryPipeline {
  import opened Prelude
  import opened FirstOccurrence
  import opened GroupBy
  import opened InventoryRows
  import opened Inventory

  // ----- laws of deduplication -----

  /** Every row of the result is the merge of all rows with its URL. */
  lemma DeduplicatedRowsAreMerges(normalize: string -> string, data: seq<Row>, i: nat)
    requires i < |Deduplicated(normalize, data)|
    ensures var keys := Firsts(KeysOf(ByUrl(normalize), data));
      |keys| == |Deduplicated(normalize, data)| &&
      var group := Group(ByUrl(normalize), data, keys[i]);
      group != [] && IsMergeOf(group, Deduplicated(normalize, data)[i])
  {
    var key := ByUrl(normalize);
    FirstsAreDistinctAndOrdered(KeysOf(key, data));
    var k := Firsts(KeysOf(key, data))[i];
    GroupMembers(key, data, k);
    GroupMergeIsMerge(Group(key, data, k));
  }

  lemma DeduplicatingTwiceChangesNothing(normalize: string -> string, data: seq<Row>)
    ensures Deduplicated(normalize, Deduplicated(normalize, data)) == Deduplicated(normalize, data)
  {
    forall a: Row, b: Row
      ensures ByUrl(normalize)(MergeRow(a, b)) == ByUrl(normalize)(a)
    {
      assert MergeRow(a, b).candidateUrl == a.candidateUrl;
    }
    GroupedTwice(ByUrl(normalize), MergeRow, data);
  }

  // ----- a primary page that was read is usable -----

  predicate PrimaryReadIsUsable(r: Row) {
    r.pageType.PrimaryPage? && r.textChars >= 200 ==> r.usableBrand
  }

  ghost predicate Made(u: Urls, brand: string, inputUrl: string, r: Row) {
    exists f :: r == MakeRow(u, brand, inputUrl, f)
  }

  lemma MadePrimaryIsUsable(u: Urls, brand: string, inputUrl: string, r: Row)
    requires Made(u, brand, inputUrl, r)
    ensures PrimaryReadIsUsable(r)
    ensures r.pageType.PrimaryPage? <==> StripSlashes(u.normalize(r.candidateUrl)) == StripSlashes(u.normalize(inputUrl))
    ensures r.pageType.PrimaryPage? ==> Official(r.relation)
  {
  }

  /** Merging keeps it, because rows with one URL are all primary or none is. */
  lemma MergedPrimaryIsUsable(u: Urls, brand: string, inputUrl: string, group: seq<Row>, r: Row)
    requires group != [] && IsMergeOf(group, r)
    requires forall x :: x in group ==> Made(u, brand, inputUrl, x)
    requires forall x :: x in group ==> u.normalize(x.candidateUrl) == u.normalize(group[0].candidateUrl)
    ensures PrimaryReadIsUsable(r)
    ensures r.pageType.PrimaryPage? ==> Official(r.relation)
  {
    var a := Attempted(group);
    assert a in group && group[0] in group;
    MadePrimaryIsUsable(u, brand, inputUrl, a);
    MadePrimaryIsUsable(u, brand, inputUrl, group[0]);
    if r.pageType.PrimaryPage? && r.textChars >= 200 {
      var i :| 0 <= i < |group| && group[i] == a;
      assert group[i].usableBrand;
    }
  }

  lemma DeduplicatedPrimaryIsUsable(u: Urls, brand: string, inputUrl: string, data: seq<Row>, i: nat)
    requires forall j :: 0 <= j < |data| ==> Made(u, brand, inputUrl, data[j])
    requires i < |Deduplicated(u.normalize, data)|
    ensures var r := Deduplicated(u.normalize, data)[i];
      PrimaryReadIsUsable(r) && (r.pageType.PrimaryPage? ==> Official(r.relation))
  {
    DeduplicatedRowsAreMerges(u.normalize, data, i);
    var k := Firsts(KeysOf(ByUrl(u.normalize), data))[i];
    var group := Group(ByUrl(u.normalize), data, k);
    GroupMembers(ByUrl(u.normalize), data, k);
    assert group[0] in group;
    forall x | x in group
      ensures Made(u, brand, inputUrl, x) && u.normalize(x.candidateUrl) == u.normalize(group[0].candidateUrl)
    {
      assert x in data && ByUrl(u.normalize)(x) == k && ByUrl(u.normalize)(group[0]) == k;
    }
    MergedPrimaryIsUsable(u, brand, inputUrl, group, Deduplicated(u.normalize, data)[i]);
  }

  // ----- the order of enrichment -----

  /** _enrichment_candidates: the pages on the site or related to it, of every type that is not a third party's. */
  predicate Candidate(r: Row)
    ensures Candidate(r) <==>
            && r.relation in {PrimaryDomain, SameDomain, OfficialRelated}
            && r.pageType in {PrimaryPage, SameDomainPage, OfficialRelatedPage, Docs, Support, NewsOrBlog, TrustOrSafety}
  {
    Official(r.relation) && !r.pageType.ThirdPartyPage?
  }

  function Priority(p: PageType): nat {
    match p
    case PrimaryPage => 0
    case OfficialRelatedPage => 1
    case Docs => 2
    case Support => 3
    case NewsOrBlog => 4
    case TrustOrSafety => 5
    case _ => 6
  }

  const ENRICHED_FIRST := [PrimaryPage, OfficialRelatedPage, Docs, Support, NewsOrBlog, TrustOrSafety]

  /** Pages come in the order of this list, and all others together after them. */
  lemma PriorityFollowsTheList(p: PageType, i: nat)
    requires i < |ENRICHED_FIRST|
    ensures ENRICHED_FIRST[i] == p ==> Priority(p) == i
    ensures p !in ENRICHED_FIRST ==> Priority(p) == |ENRICHED_FIRST| && (p.SameDomainPage? || p.ThirdPartyPage?)
  {
  }

  /** Lexicographic order by code point. */
  predicate TextBefore(a: string, b: string) {
    if b == "" then false
    else if a == "" then true
    else if a[0] != b[0] then a[0] < b[0]
    else TextBefore(a[1..], b[1..])
  }

  lemma {:induction false} TextOrderIsStrictTotal(a: string, b: string)
    ensures (if TextBefore(a, b) then 1 else 0) + (if TextBefore(b, a) then 1 else 0) + (if a == b then 1 else 0) == 1
  {
    if a != "" && b != "" && a[0] == b[0] {
      TextOrderIsStrictTotal(a[1..], b[1..]);
      assert a == [a[0]] + a[1..] && b == [b[0]] + b[1..];
    }
  }

  lemma {:induction false} TextOrderIsTransitive(a: string, b: string, c: string)
    requires TextBefore(a, b) && TextBefore(b, c)
    ensures TextBefore(a, c)
  {
    if a != "" && a[0] == b[0] && b[0] == c[0] {
      TextOrderIsTransitive(a[1..], b[1..], c[1..]);
    }
  }

  /** By priority, then URL, then position: the order of a stable sort by (priority, URL). */
  predicate Before(data: seq<Row>, i: nat, j: nat)
    requires i < |data| && j < |data|
  {
    var p, q := Priority(data[i].pageType), Priority(data[j].pageType);
    p < q || (p == q && (TextBefore(data[i].candidateUrl, data[j].candidateUrl) ||
                         (data[i].candidateUrl == data[j].candidateUrl && i < j)))
  }

  lemma BeforeIsStrictTotal(data: seq<Row>, i: nat, j: nat)
    requires i < |data| && j < |data|
    ensures (if Before(data, i, j) then 1 else 0) + (if Before(data, j, i) then 1 else 0) + (if i == j then 1 else 0) == 1
  {
    TextOrderIsStrictTotal(data[i].candidateUrl, data[j].candidateUrl);
  }

  lemma BeforeIsTransitive(data: seq<Row>, i: nat, j: nat, k: nat)
    requires i < |data| && j < |data| && k < |data| && Before(data, i, j) && Before(data, j, k)
    ensures Before(data, i, k)
  {
    var a, b, c := data[i].candidateUrl, data[j].candidateUrl, data[k].candidateUrl;
    if TextBefore(a, b) && TextBefore(b, c) {
      TextOrderIsTransitive(a, b, c);
    }
  }

  predicate Positions(data: seq<Row>, order: seq<nat>) {
    forall k :: 0 <= k < |order| ==> order[k] < |data|
  }

  ghost predicate Ascending(data: seq<Row>, order: seq<nat>)
    requires Positions(data, order)
  {
    forall a, b :: 0 <= a < b < |order| ==> Before(data, order[a], order[b])
  }

  /** The candidates of the first n rows, each once, in the order of a stable sort. */
  ghost predicate StableOrder(data: seq<Row>, n: nat, order: seq<nat>)
    requires n <= |data|
  {
    && (forall i :: i in order <==> 0 <= i < n && Candidate(data[i]))
    && Positions(data, order) && Ascending(data, order)
  }

  function Insert(data: seq<Row>, order: seq<nat>, i: nat): (r: seq<nat>)
    requires i < |data| && Positions(data, order)
    ensures Positions(data, r) && forall j :: j in r <==> j in order || j == i
  {
    if order == [] || Before(data, i, order[0]) then [i] + order
    else [order[0]] + Insert(data, order[1..], i)
  }

  lemma {:induction false} InsertKeepsOrder(data: seq<Row>, order: seq<nat>, i: nat)
    requires i < |data| && i !in order && Positions(data, order) && Ascending(data, order)
    ensures Ascending(data, Insert(data, order, i))
  {
    if order != [] {
      var first, rest := order[0], order[1..];
      if Before(data, i, first) {
        forall b | 0 < b < |order|
          ensures Before(data, i, order[b])
        {
          BeforeIsTransitive(data, i, first, order[b]);
        }
      } else {
        InsertKeepsOrder(data, rest, i);
        BeforeIsStrictTotal(data, i, first);
        var r := Insert(data, rest, i);
        forall b | 0 <= b < |r|
          ensures Before(data, first, r[b])
        {
          assert r[b] in r;
          if r[b] != i {
            var c :| 0 <= c < |rest| && rest[c] == r[b];
            assert order[c + 1] == r[b];
          }
        }
      }
    }
  }

  /** sorted(_enrichment_candidates(rows), key=_enrichment_priority), as positions. */
  function SortedCandidates(data: seq<Row>, n: nat): (order: seq<nat>)
    requires n <= |data|
    ensures Positions(data, order)
  {
    if n == 0 then []
    else if Candidate(data[n - 1]) then Insert(data, SortedCandidates(data, n - 1), n - 1)
    else SortedCandidates(data, n - 1)
  }

  lemma {:induction false} CandidateMembers(data: seq<Row>, n: nat)
    requires n <= |data|
    ensures forall i :: i in SortedCandidates(data, n) <==> 0 <= i < n && Candidate(data[i])
  {
    if n != 0 {
      CandidateMembers(data, n - 1);
    }
  }

  lemma {:induction false} CandidatesAscend(data: seq<Row>, n: nat)
    requires n <= |data|
    ensures Ascending(data, SortedCandidates(data, n))
  {
    if n != 0 {
      CandidatesAscend(data, n - 1);
      if Candidate(data[n - 1]) {
        CandidateMembers(data, n - 1);
        InsertKeepsOrder(data, SortedCandidates(data, n - 1), n - 1);
      }
    }
  }

  lemma SortedCandidatesAreStable(data: seq<Row>, n: nat)
    requires n <= |data|
    ensures StableOrder(data, n, SortedCandidates(data, n))
  {
    CandidateMembers(data, n);
    CandidatesAscend(data, n);
  }

  // ----- enrichment -----

  // What enrichment reads of a scraped page; `usable` is the outcome of _has_usable_web_content.
  datatype WebData = WebData(
    contentSource: string, browserStatus: string, usable: bool, error: string, textChars: nat, title: string, description: string)

  // Scraping may raise, and so may reading a value of what was scraped.
  datatype Step = Scraping | ReadingMethod | ReadingStatus | ReadingError | ReadingText | ReadingTitle
  datatype Failure = Failure(at: Step, message: string)
  datatype Scrape = Scrape(data: WebData, failure: Option<Failure>)
  {
    predicate RaisesAt(step: Step) {
      failure.Some? && failure.value.at == step
    }
  }

  // The outcome of the k-th scrape, which is of this URL.
  type Collector = (nat, string) -> Scrape

  /** The text, or as much of it as fits into a title. */
  ghost predicate CutTo500(title: string, text: string) {
    title <= text && (|text| <= 500 ==> title == text) && (|text| > 500 ==> |title| == 500)
  }

  /** The values taken from a page as they are. */
  ghost predicate ValuesOf(d: WebData, collection: CollectionMethod, status: string, error: string, textChars: int) {
    && (collection == BrowserFallback <==> d.contentSource == "browser_fallback")
    && (collection == DirectHtml <==> d.contentSource == "html_fallback")
    && collection in {BrowserFallback, DirectHtml, ExistingWebCollector}
    && (if d.browserStatus != "" then status == d.browserStatus else status in {"ok", "thin"} && (status == "ok" <==> d.usable))
    && error == d.error && textChars == d.textChars
  }

  /** The new title, and whether the page is usable. */
  ghost predicate Assessed(r: Row, d: WebData, title: string, usableBrand: bool, usablePerception: bool) {
    && (d.title != "" ==> CutTo500(title, d.title))
    && (d.title == "" && d.description != "" ==> CutTo500(title, d.description))
    && (d.title == "" && d.description == "" ==> title == r.title)
    && (usableBrand <==> Official(r.relation) && d.textChars >= 200)
    && (usablePerception <==> r.relation.ThirdParty? && (title != "" || d.textChars > 0))
  }

  /** A page that was read. */
  ghost predicate WasRead(r: Row, d: WebData, r': Row) {
    && ValuesOf(d, r'.collection, r'.status, r'.error, r'.textChars)
    && Assessed(r, d, r'.title, r'.usableBrand, r'.usablePerception)
  }

  /** A page of which something could not be read: an error row without text that is not usable. */
  ghost predicate WasNotRead(r: Row, message: string, r': Row) {
    && r'.collection == ExistingWebCollector && r'.status == "error" && r'.error == message
    && r'.textChars == 0 && !r'.usableBrand && r'.title == r.title && r'.usablePerception == r.usablePerception
  }

  /** The row after its page was scraped with this outcome. Nothing but what was read differs. */
  ghost predicate Enriched(r: Row, scrape: Scrape, r': Row) {
    && r' == r.(collection := r'.collection, status := r'.status, error := r'.error, textChars := r'.textChars,
                title := r'.title, usableBrand := r'.usableBrand, usablePerception := r'.usablePerception, enriched := true)
    && (if scrape.failure.Some? then WasNotRead(r, scrape.failure.value.message, r') else WasRead(r, scrape.data, r'))
  }

  /** The except block, from whatever the try block had assigned. */
  method Failed(row: InventoryRow, message: string)
    modifies row`collection, row`status, row`error, row`textChars, row`usableBrand, row`enriched
    ensures row.collection == ExistingWebCollector && row.status == "error" && row.error == message
    ensures row.textChars == 0 && !row.usableBrand && row.enriched
  {
    row.collection := ExistingWebCollector;
    row.status := "error";
    row.error := message;
    row.textChars := 0;
    row.usableBrand := false;
    row.enriched := true;
  }

  /** _collection_method_from_web_data */
  function MethodOf(contentSource: string): CollectionMethod {
    if contentSource == "browser_fallback" then BrowserFallback
    else if contentSource == "html_fallback" then DirectHtml
    else ExistingWebCollector
  }

  /** The values that are taken as they are, one after the other, until one raises. */
  method ReadValues(row: InventoryRow, scrape: Scrape) returns (raised: bool)
    modifies row`collection, row`status, row`error, row`textChars
    ensures raised <==> scrape.failure.Some? && !scrape.failure.value.at.ReadingTitle?
    ensures !raised ==> ValuesOf(scrape.data, row.collection, row.status, row.error, row.textChars)
  {
    var data := scrape.data;
    raised := true;
    if scrape.RaisesAt(Scraping) || scrape.RaisesAt(ReadingMethod) {
      return;
    }
    row.collection := MethodOf(data.contentSource);
    if scrape.RaisesAt(ReadingStatus) {
      return;
    }
    row.status := if data.browserStatus != "" then data.browserStatus else if data.usable then "ok" else "thin";
    if scrape.RaisesAt(ReadingError) {
      return;
    }
    row.error := data.error;
    if scrape.RaisesAt(ReadingText) {
      return;
    }
    row.textChars := data.textChars;
    raised := false;
  }

  /** The title is replaced by a text that is not empty. */
  method SetTitle(row: InventoryRow, title: string)
    modifies row`title
    ensures if title == "" then row.title == old(row.title) else CutTo500(row.title, title)
  {
    if title != "" {
      row.title := if |title| > 500 then title[..500] else title;
    }
  }

  /** The rest of the try block. */
  method Assess(row: InventoryRow, data: WebData)
    requires row.textChars == data.textChars
    modifies row`title, row`usableBrand, row`usablePerception, row`enriched
    ensures Assessed(old(row.Data()), data, row.title, row.usableBrand, row.usablePerception) && row.enriched
  {
    SetTitle(row, if data.title != "" then data.title else data.description);
    row.usableBrand := Official(row.relation) && row.textChars >= 200;
    row.usablePerception := row.relation.ThirdParty? && (row.title != "" || row.textChars != 0);
    row.enriched := true;
  }

  /** The try block. */
  method ReadPage(row: InventoryRow, scrape: Scrape) returns (raised: bool)
    modifies row`collection, row`status, row`error, row`textChars, row`title, row`usableBrand, row`usablePerception, row`enriched
    ensures raised <==> scrape.failure.Some?
    ensures raised ==> row.title == old(row.title) && row.usablePerception == old(row.usablePerception)
    ensures !raised ==> WasRead(old(row.Data()), scrape.data, row.Data()) && row.enriched
  {
    raised := ReadValues(row, scrape);
    if raised || scrape.RaisesAt(ReadingTitle) {
      return true;
    }
    Assess(row, scrape.data);
  }

  /** _enrich_row, when the scrape has this outcome. */
  method EnrichRow(row: InventoryRow, scrape: Scrape)
    modifies row
    ensures Enriched(old(row.Data()), scrape, row.Data())
  {
    var raised := ReadPage(row, scrape);
    if raised {
      Failed(row, scrape.failure.value.message);
    }
  }

  function Min(a: int, b: int): int {
    if a < b then a else b
  }

  /** Exactly the first `count` rows of the order were enriched. */
  ghost predicate EnrichedExactly(data: seq<Row>, now: seq<Row>, order: seq<nat>, count: nat, collector: Collector)
    requires |now| == |data| && Positions(data, order) && count <= |order|
  {
    && (forall k :: 0 <= k < count ==> Enriched(data[order[k]], collector(k, data[order[k]].candidateUrl), now[order[k]]))
    && (forall j :: 0 <= j < |data| && j !in order[..count] ==> now[j] == data[j])
  }

  lemma OneMoreEnriched(data: seq<Row>, now: seq<Row>, next: seq<Row>, order: seq<nat>, count: nat, collector: Collector)
    requires |now| == |next| == |data| && StableOrder(data, |data|, order) && count < |order|
    requires EnrichedExactly(data, now, order, count, collector)
    requires Enriched(now[order[count]], collector(count, now[order[count]].candidateUrl), next[order[count]])
    requires forall j :: 0 <= j < |data| && j != order[count] ==> next[j] == now[j]
    ensures EnrichedExactly(data, next, order, count + 1, collector)
  {
    forall k | 0 <= k < count
      ensures order[k] != order[count]
    {
      BeforeIsStrictTotal(data, order[k], order[count]);
    }
  }

  /** The loop body. */
  method EnrichOne(rows: seq<InventoryRow>, i: nat, scrape: Scrape)
    requires DistinctObjects(rows) && i < |rows|
    modifies rows
    ensures Enriched(old(Snapshot(rows))[i], scrape, Snapshot(rows)[i])
    ensures forall j :: 0 <= j < |rows| && j != i ==> Snapshot(rows)[j] == old(Snapshot(rows))[j]
  {
    EnrichRow(rows[i], scrape);
    assert forall j :: 0 <= j < |rows| && j != i ==> rows[j] != rows[i];
  }

  lemma NothingEnriched(data: seq<Row>, order: seq<nat>, collector: Collector)
    requires Positions(data, order)
    ensures EnrichedExactly(data, data, order, 0, collector)
  {
  }

  /** The loop over the sorted candidates, with its break. */
  method EnrichInOrder(rows: seq<InventoryRow>, order: seq<nat>, budget: nat, collector: Collector) returns (count: nat)
    requires DistinctObjects(rows) && StableOrder(Snapshot(rows), |rows|, order)
    modifies rows
    ensures count == Min(budget, |order|)
    ensures EnrichedExactly(old(Snapshot(rows)), Snapshot(rows), order, count, collector)
  {
    ghost var data := Snapshot(rows);
    NothingEnriched(data, order, collector);
    count := 0;
    while count < |order| && count < budget
      invariant count <= |order| && count <= budget
      invariant EnrichedExactly(data, Snapshot(rows), order, count, collector)
    {
      ghost var before := Snapshot(rows);
      EnrichOne(rows, order[count], collector(count, rows[order[count]].candidateUrl));
      OneMoreEnriched(data, before, Snapshot(rows), order, count, collector);
      count := count + 1;
    }
  }

  /** enrich_official_rows: exactly the first min(budget, candidates) rows of the stable order are enriched. */
  method EnrichOfficialRows(rows: seq<InventoryRow>, maxEnrich: int, collector: Collector) returns (count: nat)
    requires DistinctObjects(rows)
    modifies rows
    ensures var data := old(Snapshot(rows));
      var order := SortedCandidates(data, |data|);
      && StableOrder(data, |data|, order)
      && count == (if maxEnrich <= 0 then 0 else Min(maxEnrich, |order|))
      && EnrichedExactly(data, Snapshot(rows), order, count, collector)
  {
    ghost var data := Snapshot(rows);
    SortedCandidatesAreStable(data, |data|);
    if maxEnrich <= 0 {
      NothingEnriched(data, SortedCandidates(data, |data|), collector);
      return 0;
    }
    count := EnrichInOrder(rows, SortedCandidates(Snapshot(rows), |rows|), maxEnrich, collector);
  }

  // ----- the recommended analysis mode -----

  datatype Mode =
    | OfficialPagesBundle | PrimaryPageOnly | RelatedOfficialPagesBundle | PublicPerceptionOnly | NotEnoughEvidence

  function FirstPrimary(rows: seq<Row>): Option<Row> {
    if rows == [] then None
    else if rows[0].pageType.PrimaryPage? then Some(rows[0])
    else FirstPrimary(rows[1..])
  }

  function UsableNonPrimary(rows: seq<Row>): nat {
    if rows == [] then 0
    else (if rows[0].usableBrand && !rows[0].pageType.PrimaryPage? then 1 else 0) + UsableNonPrimary(rows[1..])
  }

  /** recommended_analysis_mode */
  function AnalysisMode(rows: seq<Row>): Mode {
    var primary := FirstPrimary(rows);
    if primary.Some? && primary.value.usableBrand then
      if UsableNonPrimary(rows) >= 2 then OfficialPagesBundle else PrimaryPageOnly
    else if exists i | 0 <= i < |rows| :: rows[i].usableBrand && rows[i].relation.OfficialRelated? then RelatedOfficialPagesBundle
    else if exists i | 0 <= i < |rows| :: rows[i].usablePerception then PublicPerceptionOnly
    else if primary.Some? && primary.value.textChars >= 1500 then PrimaryPageOnly
    else NotEnoughEvidence
  }

  ghost predicate IsFirstPrimary(rows: seq<Row>, i: nat, r: Row) {
    i < |rows| && rows[i] == r && r.pageType.PrimaryPage? && forall k :: 0 <= k < i ==> !rows[k].pageType.PrimaryPage?
  }

  lemma {:induction false} FirstPrimaryIsFirst(rows: seq<Row>) returns (i: nat)
    ensures FirstPrimary(rows).Some? ==> IsFirstPrimary(rows, i, FirstPrimary(rows).value)
    ensures FirstPrimary(rows).None? ==> forall k :: 0 <= k < |rows| ==> !rows[k].pageType.PrimaryPage?
  {
    i := 0;
    if rows != [] && !rows[0].pageType.PrimaryPage? {
      i := FirstPrimaryIsFirst(rows[1..]);
      assert forall k :: 0 < k < |rows| ==> rows[k] == rows[1..][k - 1];
      i := i + 1;
    }
  }

  ghost predicate UsablePart(r: Row) {
    r.usableBrand && !r.pageType.PrimaryPage?
  }

  ghost predicate SomeUsablePart(rows: seq<Row>) {
    exists i :: 0 <= i < |rows| && UsablePart(rows[i])
  }

  ghost predicate TwoUsableParts(rows: seq<Row>) {
    exists i, j :: 0 <= i < j < |rows| && UsablePart(rows[i]) && UsablePart(rows[j])
  }

  lemma {:induction false} CountOfUsableParts(rows: seq<Row>)
    ensures UsableNonPrimary(rows) >= 1 <==> SomeUsablePart(rows)
    ensures UsableNonPrimary(rows) >= 2 <==> TwoUsableParts(rows)
  {
    if rows != [] {
      var rest := rows[1..];
      CountOfUsableParts(rest);
      assert forall i :: 0 < i < |rows| ==> rows[i] == rest[i - 1];
      if SomeUsablePart(rest) {
        var i :| 0 <= i < |rest| && UsablePart(rest[i]);
        assert UsablePart(rows[i + 1]);
      }
      if TwoUsableParts(rest) {
        var i, j :| 0 <= i < j < |rest| && UsablePart(rest[i]) && UsablePart(rest[j]);
        assert UsablePart(rows[i + 1]) && UsablePart(rows[j + 1]);
      }
    }
  }

  /** What each recommendation says of the rows. */
  lemma ModeMeans(rows: seq<Row>)
    ensures var primary := FirstPrimary(rows);
      var usable := primary.Some? && primary.value.usableBrand;
      var mode := AnalysisMode(rows);
      && (mode.OfficialPagesBundle? <==> usable && TwoUsableParts(rows))
      && (usable && !TwoUsableParts(rows) ==> mode.PrimaryPageOnly?)
      && (mode.RelatedOfficialPagesBundle? <==> !usable && SomeRelated(rows))
      && (mode.PublicPerceptionOnly? <==> !usable && !SomeRelated(rows) && SomePerception(rows))
      && (mode.NotEnoughEvidence? ==> !usable && !SomeRelated(rows) && !SomePerception(rows)
                                      && (primary.Some? ==> primary.value.textChars < 1500))
  {
    CountOfUsableParts(rows);
  }

  ghost predicate SomeRelated(rows: seq<Row>) {
    exists r :: r in rows && r.usableBrand && r.relation.OfficialRelated?
  }

  ghost predicate SomePerception(rows: seq<Row>) {
    exists r :: r in rows && r.usablePerception
  }

  /** The primary page alone is recommended only if it is usable: the late fallback is never taken. */
  ghost predicate FallbackNotTaken(rows: seq<Row>) {
    var primary := FirstPrimary(rows);
    && (AnalysisMode(rows).PrimaryPageOnly? ==> primary.Some? && primary.value.usableBrand)
    && (primary.Some? && primary.value.textChars >= 1500 ==> primary.value.usableBrand)
  }

  lemma FallbackIsUnreachable(rows: seq<Row>)
    requires forall i :: 0 <= i < |rows| ==> PrimaryReadIsUsable(rows[i])
    ensures FallbackNotTaken(rows)
  {
    var i := FirstPrimaryIsFirst(rows);
    if FirstPrimary(rows).Some? {
      assert PrimaryReadIsUsable(rows[i]);
    }
  }

  /** Of arbitrary rows it can be taken: the invariant of collected rows is what excludes it. */
  lemma FallbackIsReachableOtherwise(r: Row)
    requires r.pageType.PrimaryPage? && r.textChars >= 1500 && !r.usableBrand && !r.usablePerception
    ensures !FallbackNotTaken([r]) && AnalysisMode([r]) == PrimaryPageOnly
  {
  }

  // ----- collect_inventory -----

  /** The values of the rows that the findings become. */
  function MadeData(u: Urls, brand: string, inputUrl: string, findings: seq<Finding>): (data: seq<Row>)
    ensures |data| == |findings| && forall i :: 0 <= i < |data| ==> data[i] == MakeRow(u, brand, inputUrl, findings[i])
  {
    seq(|findings|, i requires 0 <= i < |findings| => MakeRow(u, brand, inputUrl, findings[i]))
  }

  method MakeRows(u: Urls, brand: string, inputUrl: string, findings: seq<Finding>) returns (made: seq<InventoryRow>)
    ensures |made| == |findings| && DistinctObjects(made) && forall j :: 0 <= j < |made| ==> fresh(made[j])
    ensures Snapshot(made) == MadeData(u, brand, inputUrl, findings)
  {
    made := [];
    for i := 0 to |findings|
      invariant |made| == i && DistinctObjects(made) && forall j :: 0 <= j < i ==> fresh(made[j])
      invariant forall j :: 0 <= j < i ==> made[j].Data() == MakeRow(u, brand, inputUrl, findings[j])
    {
      var row := new InventoryRow(MakeRow(u, brand, inputUrl, findings[i]));
      made := made + [row];
    }
  }

  /** Primary rows that were read are usable, and primary rows are official. */
  ghost predicate PrimariesUsable(data: seq<Row>) {
    forall i :: 0 <= i < |data| ==>
      PrimaryReadIsUsable(data[i]) && (data[i].pageType.PrimaryPage? ==> Official(data[i].relation))
  }

  lemma DeduplicatedPrimariesUsable(u: Urls, brand: string, inputUrl: string, data: seq<Row>)
    requires forall j :: 0 <= j < |data| ==> Made(u, brand, inputUrl, data[j])
    ensures PrimariesUsable(Deduplicated(u.normalize, data))
  {
    forall i | 0 <= i < |Deduplicated(u.normalize, data)|
      ensures var r := Deduplicated(u.normalize, data)[i];
        PrimaryReadIsUsable(r) && (r.pageType.PrimaryPage? ==> Official(r.relation))
    {
      DeduplicatedPrimaryIsUsable(u, brand, inputUrl, data, i);
    }
  }

  method Deduplicate(normalize: string -> string, made: seq<InventoryRow>) returns (rows: seq<InventoryRow>)
    requires DistinctObjects(made)
    modifies made
    ensures DistinctObjects(rows) && forall i :: 0 <= i < |rows| ==> rows[i] in made
    ensures Snapshot(rows) == Deduplicated(normalize, old(Snapshot(made)))
  {
    ghost var data := Snapshot(made);
    rows := DedupeRows(normalize, made);
    FirstObjectsAreDistinct(KeysOf(ByUrl(normalize), data), made, rows);
  }

  lemma EnrichmentKeepsPrimariesUsable(data: seq<Row>, now: seq<Row>, order: seq<nat>, count: nat, collector: Collector)
    requires |now| == |data| && Positions(data, order) && count <= |order|
    requires PrimariesUsable(data) && EnrichedExactly(data, now, order, count, collector)
    ensures PrimariesUsable(now)
  {
  }

  /** The rows of a collected inventory: those of the findings, deduplicated and then enriched within the budget. */
  ghost predicate Collected(u: Urls, brand: string, url: string, findings: seq<Finding>, enrich: bool, maxEnrich: int,
                            collector: Collector, now: seq<Row>) {
    var base := Deduplicated(u.normalize, MadeData(u, brand, u.normalize(url), findings));
    var order := SortedCandidates(base, |base|);
    if !enrich then now == base
    else |now| == |base| && EnrichedExactly(base, now, order, if maxEnrich <= 0 then 0 else Min(maxEnrich, |order|), collector)
  }

  lemma CollectedPrimariesUsable(u: Urls, brand: string, url: string, findings: seq<Finding>, enrich: bool, maxEnrich: int,
                                 collector: Collector, now: seq<Row>)
    requires Collected(u, brand, url, findings, enrich, maxEnrich, collector, now)
    ensures PrimariesUsable(now)
  {
    var made := MadeData(u, brand, u.normalize(url), findings);
    var base := Deduplicated(u.normalize, made);
    DeduplicatedPrimariesUsable(u, brand, u.normalize(url), made);
    if enrich {
      var order := SortedCandidates(base, |base|);
      EnrichmentKeepsPrimariesUsable(base, now, order, if maxEnrich <= 0 then 0 else Min(maxEnrich, |order|), collector);
    }
  }

  /** The findings of all collection steps become rows, are deduplicated and, if wanted, enriched. Whatever
      was found and whatever the scrapes return or raise, the recommendation never rests on the fallback. */
  method CollectInventory(u: Urls, brand: string, url: string, findings: seq<Finding>, enrich: bool, maxEnrich: int, collector: Collector)
    returns (rows: seq<InventoryRow>)
    ensures Collected(u, brand, url, findings, enrich, maxEnrich, collector, Snapshot(rows))
    ensures PrimariesUsable(Snapshot(rows)) && FallbackNotTaken(Snapshot(rows))
  {
    var made := MakeRows(u, brand, u.normalize(url), findings);
    rows := Deduplicate(u.normalize, made);
    if enrich {
      var count := EnrichOfficialRows(rows, maxEnrich, collector);
    }
    CollectedPrimariesUsable(u, brand, url, findings, enrich, maxEnrich, collector, Snapshot(rows));
    FallbackIsUnreachable(Snapshot(rows));
  }

  lemma FirstObjectsAreDistinct(keys: seq<string>, rows: seq<InventoryRow>, result: seq<InventoryRow>)
    requires |keys| == |rows| && KeepsFirstObjects(keys, rows, result) && DistinctObjects(rows)
    ensures DistinctObjects(result)
    ensures forall i :: 0 <= i < |result| ==> result[i] in rows
  {
    FirstsAreDistinctAndOrdered(keys);
    forall i, j | 0 <= i < j < |result|
      ensures result[i] != result[j]
    {
      assert IsFirstObject(keys, rows, Firsts(keys)[i], result[i]);
      assert IsFirstObject(keys, rows, Firsts(keys)[j], result[j]);
    }
    forall i | 0 <= i < |result|
      ensures result[i] in rows
    {
      assert IsFirstObject(keys, rows, Firsts(keys)[i], result[i]);
    }
  }
}
