/** Inventory rows: how one is made, and how a group of rows with the same URL is merged. */
module InventoryRows {
  import opened GroupBy
  import opened SourceTokens

  datatype PageType =
    | PrimaryPage | SameDomainPage | OfficialRelatedPage | Docs | Support | NewsOrBlog | TrustOrSafety | ThirdPartyPage
  datatype RelationToBrand = PrimaryDomain | SameDomain | OfficialRelated | ThirdParty
  datatype CollectionMethod = NotAttempted | ExistingWebCollector | BrowserFallback | DirectHtml | ExaMetadata

  datatype Row = Row(
    brand: string, inputUrl: string, candidateUrl: string, host: string,
    pageType: PageType, relation: RelationToBrand, confidence: real,
    source: string, title: string, collection: CollectionMethod, status: string, error: string,
    textChars: int, usableBrand: bool, usablePerception: bool, enriched: bool)

  /** Library and pattern-matching functions on URLs and text. Nothing is assumed of them, not even that
      `normalize` is idempotent. */
  datatype Urls = Urls(
    normalize: string -> string,
    host: string -> string,
    rootDomain: string -> string,
    pageType: (string, string) -> PageType,             // URL, title; PrimaryPage when no pattern matches
    claudeRelated: (string, string, string) -> bool,    // brand, URL, title
    mentionsClaude: (string, string) -> bool,           // URL, title
    generalRelated: (string, string, string) -> bool)   // brand, URL, title

  function StripSlashes(url: string): string {
    if url != "" && url[|url| - 1] == '/' then StripSlashes(url[..|url| - 1]) else url
  }

  /** All slashes at the end are gone, and nothing else. */
  lemma {:induction false} OnlySlashesAreStripped(url: string)
    ensures StripSlashes(url) <= url && (StripSlashes(url) == "" || StripSlashes(url)[|StripSlashes(url)| - 1] != '/')
    ensures forall k :: |StripSlashes(url)| <= k < |url| ==> url[k] == '/'
  {
    if url != "" && url[|url| - 1] == '/' {
      OnlySlashesAreStripped(url[..|url| - 1]);
    }
  }

  predicate Official(r: RelationToBrand)
    ensures Official(r) <==> !r.ThirdParty?
  {
    r.PrimaryDomain? || r.SameDomain? || r.OfficialRelated?
  }

  function Replaced(p: PageType, q: PageType): PageType {
    if p.PrimaryPage? then q else p
  }

  /** classify_page */
  function ClassifyPage(u: Urls, brand: string, inputUrl: string, candidateUrl: string, title: string): (PageType, RelationToBrand, real) {
    var input := u.normalize(inputUrl);
    var candidate := u.normalize(candidateUrl);
    if StripSlashes(candidate) == StripSlashes(input) then (PrimaryPage, PrimaryDomain, 1.0)
    else
      var pageType := u.pageType(candidateUrl, title);
      if u.host(candidate) == u.host(input) then (Replaced(pageType, SameDomainPage), SameDomain, 0.95)
      else if u.rootDomain(u.host(candidate)) == u.rootDomain(u.host(input)) then (Replaced(pageType, SameDomainPage), SameDomain, 0.85)
      else if u.claudeRelated(brand, candidate, title) then
        (Replaced(pageType, OfficialRelatedPage), OfficialRelated, if u.mentionsClaude(candidate, title) then 0.9 else 0.82)
      else if u.generalRelated(brand, candidate, title) then (Replaced(pageType, OfficialRelatedPage), OfficialRelated, 0.72)
      else (ThirdPartyPage, ThirdParty, 0.2)
  }

  ghost predicate SameRoot(u: Urls, a: string, b: string) {
    u.rootDomain(u.host(u.normalize(a))) == u.rootDomain(u.host(u.normalize(b)))
  }

  ghost predicate SamePage(u: Urls, a: string, b: string) {
    StripSlashes(u.normalize(a)) == StripSlashes(u.normalize(b))
  }

  /** The relation to the brand says where a page lies, and its page type is the matched pattern unless there
      is none. */
  lemma ClassifiedByPlace(u: Urls, brand: string, inputUrl: string, url: string, title: string)
    ensures var (page, relation, confidence) := ClassifyPage(u, brand, inputUrl, url, title);
      var pattern := u.pageType(url, title);
      && (relation.PrimaryDomain? <==> SamePage(u, url, inputUrl))
      && (relation.ThirdParty? || relation.OfficialRelated? ==> !SameRoot(u, url, inputUrl))
      && (relation.SameDomain? ==> SameRoot(u, url, inputUrl))
      && (relation.OfficialRelated? ==> u.claudeRelated(brand, u.normalize(url), title) || u.generalRelated(brand, u.normalize(url), title))
      && (relation.ThirdParty? ==> !u.claudeRelated(brand, u.normalize(url), title) && !u.generalRelated(brand, u.normalize(url), title))
      && (page.PrimaryPage? <==> relation.PrimaryDomain?)
      && (relation.ThirdParty? ==> page.ThirdPartyPage?)
      && (relation.SameDomain? || relation.OfficialRelated? ==> (!pattern.PrimaryPage? ==> page == pattern))
      && (relation.SameDomain? && pattern.PrimaryPage? ==> page.SameDomainPage?)
      && (relation.OfficialRelated? && pattern.PrimaryPage? ==> page.OfficialRelatedPage?)
  {
  }

  /** How sure the relation is. */
  lemma ConfidenceTellsTheRule(u: Urls, brand: string, inputUrl: string, url: string, title: string)
    ensures var (page, relation, confidence) := ClassifyPage(u, brand, inputUrl, url, title);
      var sameHost := u.host(u.normalize(url)) == u.host(u.normalize(inputUrl));
      var claude := u.claudeRelated(brand, u.normalize(url), title);
      && (confidence == 1.0 <==> relation.PrimaryDomain?)
      && (confidence == 0.95 <==> relation.SameDomain? && sameHost)
      && (confidence == 0.85 <==> relation.SameDomain? && !sameHost)
      && (confidence == 0.9 <==> relation.OfficialRelated? && claude && u.mentionsClaude(u.normalize(url), title))
      && (confidence == 0.82 <==> relation.OfficialRelated? && claude && !u.mentionsClaude(u.normalize(url), title))
      && (confidence == 0.72 <==> relation.OfficialRelated? && !claude)
      && (confidence == 0.2 <==> relation.ThirdParty?)
  {
  }

  // What a collection step passes to make_row, apart from brand and input URL.
  datatype Finding = Finding(
    candidateUrl: string, source: string, title: string, collection: CollectionMethod, status: string, error: string,
    textChars: int, searchMetadata: bool)

  /** make_row */
  function MakeRow(u: Urls, brand: string, inputUrl: string, f: Finding): Row {
    var candidate := u.normalize(f.candidateUrl);
    var (pageType, relation, confidence) := ClassifyPage(u, brand, inputUrl, candidate, f.title);
    var usableText := f.textChars >= 200;
    Row(brand, u.normalize(inputUrl), candidate, u.host(candidate), pageType, relation, confidence,
        f.source, if |f.title| > 500 then f.title[..500] else f.title, f.collection, f.status, f.error, f.textChars,
        Official(relation) && usableText && !(f.searchMetadata && relation.OfficialRelated?),
        relation.ThirdParty? && (f.title != "" || usableText),
        false)
  }

  /** A made row shows what was found; it is evidence about the brand exactly if its page is official with
      200 characters of text, and not a search result about a related page. */
  lemma MadeRowShowsItsFinding(u: Urls, brand: string, inputUrl: string, f: Finding)
    ensures var r := MakeRow(u, brand, inputUrl, f);
      && r.brand == brand && r.inputUrl == u.normalize(inputUrl) && r.candidateUrl == u.normalize(f.candidateUrl)
      && r.host == u.host(r.candidateUrl)
      && (r.pageType, r.relation, r.confidence) == ClassifyPage(u, brand, inputUrl, r.candidateUrl, f.title)
      && r.source == f.source && r.title <= f.title && (if |f.title| <= 500 then r.title == f.title else |r.title| == 500)
      && r.collection == f.collection && r.status == f.status && r.error == f.error && r.textChars == f.textChars && !r.enriched
      && (r.usableBrand <==> !r.relation.ThirdParty? && f.textChars >= 200 && (f.searchMetadata ==> !r.relation.OfficialRelated?))
      && (r.usablePerception <==> r.relation.ThirdParty? && !(f.title == "" && f.textChars < 200))
  {
  }

  // ----- merging -----

  /** The body of the deduplication loop for a row whose key was seen before. */
  function MergeRow(current: Row, row: Row): Row {
    var attempted := current.collection.NotAttempted? && !row.collection.NotAttempted?;
    var taken := if attempted then row else current;
    current.(
      source := Merged(current.source, row.source),
      title := if current.title == "" then row.title else current.title,
      collection := taken.collection, status := taken.status, error := taken.error, textChars := taken.textChars,
      usableBrand := current.usableBrand || row.usableBrand,
      usablePerception := current.usablePerception || row.usablePerception,
      confidence := if row.confidence > current.confidence then row.confidence else current.confidence)
  }

  // ----- what the merge of a group means, field by field -----

  /** The row whose page was read first, or the first row if none was read. */
  function Attempted(group: seq<Row>): Row
    requires group != []
  {
    if exists i | 0 <= i < |group| :: !group[i].collection.NotAttempted? then group[FirstAttempt(group)] else group[0]
  }

  function FirstAttempt(group: seq<Row>): (i: nat)
    requires exists i :: 0 <= i < |group| && !group[i].collection.NotAttempted?
    ensures i < |group| && !group[i].collection.NotAttempted? && forall k :: 0 <= k < i ==> group[k].collection.NotAttempted?
  {
    if !group[0].collection.NotAttempted? then 0
    else
      assert exists i :: 0 <= i < |group[1..]| && !group[1..][i].collection.NotAttempted? by {
        var i :| 0 <= i < |group| && !group[i].collection.NotAttempted?;
        assert group[1..][i - 1] == group[i];
      }
      1 + FirstAttempt(group[1..])
  }

  function Sources(group: seq<Row>): seq<string> {
    seq(|group|, i requires 0 <= i < |group| => group[i].source)
  }

  /** The first title that is not empty. */
  ghost predicate FirstTitle(group: seq<Row>, title: string) {
    if forall i :: 0 <= i < |group| ==> group[i].title == "" then title == ""
    else exists i :: 0 <= i < |group| && group[i].title == title && title != "" && forall k :: 0 <= k < i ==> group[k].title == ""
  }

  ghost predicate IsMaximum(group: seq<Row>, confidence: real) {
    && (exists i :: 0 <= i < |group| && group[i].confidence == confidence)
    && forall i :: 0 <= i < |group| ==> group[i].confidence <= confidence
  }

  /** What deduplication promises for one group. */
  ghost predicate IsMergeOf(group: seq<Row>, r: Row)
    requires group != []
  {
    && r.brand == group[0].brand && r.inputUrl == group[0].inputUrl && r.candidateUrl == group[0].candidateUrl
    && r.host == group[0].host && r.pageType == group[0].pageType && r.relation == group[0].relation
    && r.enriched == group[0].enriched
    && r.source == MergedSource(Sources(group))
    && FirstTitle(group, r.title)
    && IsMaximum(group, r.confidence)
    && (r.usableBrand <==> exists i :: 0 <= i < |group| && group[i].usableBrand)
    && (r.usablePerception <==> exists i :: 0 <= i < |group| && group[i].usablePerception)
    && var a := Attempted(group);
       r.collection == a.collection && r.status == a.status && r.error == a.error && r.textChars == a.textChars
  }

  /** Merging row by row gives the flags by disjunction, the confidence by maximum, the first title, and
      method, status, error and length together from the first row that was read. */
  lemma {:induction false} GroupMergeIsMerge(group: seq<Row>)
    requires group != []
    ensures IsMergeOf(group, Reduce(MergeRow, group))
  {
    if |group| == 1 {
      assert group == [group[0]];
      SingleIsMerge(group[0]);
    } else {
      var front, last := group[..|group| - 1], group[|group| - 1];
      assert front + [last] == group;
      GroupMergeIsMerge(front);
      MergeStep(front, last, Reduce(MergeRow, front));
    }
  }

  lemma SingleIsMerge(row: Row)
    ensures IsMergeOf([row], row)
  {
  }

  lemma MergeStep(front: seq<Row>, last: Row, current: Row)
    requires front != [] && IsMergeOf(front, current)
    ensures IsMergeOf(front + [last], MergeRow(current, last))
  {
    var group := front + [last];
    MergeKeepsSources(front, last);
    MergeKeepsTitle(front, last, current);
    MergeKeepsAttempt(front, last);
    MergeKeepsMaximum(front, last, current.confidence);
    MergeKeepsFlags(front, last);
  }

  lemma MergeKeepsSources(front: seq<Row>, last: Row)
    requires front != []
    ensures MergedSource(Sources(front + [last])) == Merged(MergedSource(Sources(front)), last.source)
  {
    assert Sources(front + [last])[..|front|] == Sources(front);
  }

  lemma MergeKeepsFlags(front: seq<Row>, last: Row)
    ensures var group := front + [last];
      && ((exists i :: 0 <= i < |group| && group[i].usableBrand) <==>
          (exists i :: 0 <= i < |front| && front[i].usableBrand) || last.usableBrand)
      && ((exists i :: 0 <= i < |group| && group[i].usablePerception) <==>
          (exists i :: 0 <= i < |front| && front[i].usablePerception) || last.usablePerception)
  {
    var group := front + [last];
    assert group[|front|] == last && forall i :: 0 <= i < |front| ==> group[i] == front[i];
  }

  lemma MergeKeepsTitle(front: seq<Row>, last: Row, current: Row)
    requires FirstTitle(front, current.title)
    ensures FirstTitle(front + [last], MergeRow(current, last).title)
  {
    var group, merged := front + [last], MergeRow(current, last);
    if current.title != "" {
      var i :| 0 <= i < |front| && front[i].title == current.title && current.title != ""
               && forall k :: 0 <= k < i ==> front[k].title == "";
      assert group[i].title == merged.title;
    } else if last.title != "" {
      assert group[|front|].title == merged.title;
    }
  }

  lemma MergeKeepsMaximum(front: seq<Row>, last: Row, confidence: real)
    requires IsMaximum(front, confidence)
    ensures IsMaximum(front + [last], if last.confidence > confidence then last.confidence else confidence)
  {
    var group := front + [last];
    var i :| 0 <= i < |front| && front[i].confidence == confidence;
    assert group[i] == front[i] && group[|front|] == last;
  }

  lemma MergeKeepsAttempt(front: seq<Row>, last: Row)
    requires front != []
    ensures Attempted(front + [last]) ==
            if Attempted(front).collection.NotAttempted? && !last.collection.NotAttempted? then last else Attempted(front)
  {
    var group := front + [last];
    assert group[|front|] == last && forall k :: 0 <= k < |front| ==> group[k] == front[k];
    if exists i :: 0 <= i < |front| && !front[i].collection.NotAttempted? {
      assert FirstAttempt(group) == FirstAttempt(front);
    } else if !last.collection.NotAttempted? {
      assert FirstAttempt(group) == |front|;
    }
  }
}
