/** `Audits::getResults` (classes/Audits.php): the long-key fields of the
    record, with each page and each link turned into a list entry carrying
    its key as `id`. */
module Results {
  import opened PhpArray
  import opened Records

  datatype LinkResult = LinkResult(id: string, url: Option<string>, status: Option<int>, dateChecked: Option<string>)

  /** `links` is `null` for a page without a `links` key. */
  datatype PageResult = PageResult(
    id: string,
    url: Option<string>,
    status: Option<int>,
    dateChecked: Option<string>,
    title: Option<string>,
    description: Option<string>,
    keywords: Option<string>,
    content: Option<string>,
    links: Option<seq<LinkResult>>)

  /** `maxPagesCount` is `None` when the key is absent from the result (no
      record), and `Some(null)` or `Some(n)` otherwise. */
  datatype AuditResults = AuditResults(
    id: string,
    dateRequested: Option<string>,
    pages: seq<PageResult>,
    allowSearchEngines: Option<bool>,
    maxPagesCount: Option<Option<int>>)

  function LinkResultOf(linkID: string, l: LinkV1): LinkResult {
    LinkResult(linkID, l.url, l.status, l.dateChecked)
  }

  function LinkResults(links: OrdMap<LinkV1>): seq<LinkResult> {
    seq(|links|, j requires 0 <= j < |links| => LinkResultOf(links[j].0, links[j].1))
  }

  function PageResultOf(pageID: string, p: PageV1): PageResult {
    PageResult(pageID, p.url, p.status, p.dateChecked, p.title, p.description, p.keywords, p.content,
               if p.links.Some? then Some(LinkResults(p.links.value)) else None)
  }

  function PageResults(pages: OrdMap<PageV1>): seq<PageResult> {
    seq(|pages|, i requires 0 <= i < |pages| => PageResultOf(pages[i].0, pages[i].1))
  }

  /** `getResults($id)` given what `getData($id)` returned; a `null` `pages`
      makes the `foreach` a no-op. */
  function ResultsOf(id: string, found: Option<AuditArray>): AuditResults {
    if found.None? then AuditResults(id, None, [], None, None)
    else
      var d := found.value.v1;
      AuditResults(id, d.dateRequested, if d.pages.Some? then PageResults(d.pages.value) else [],
                   d.allowSearchEngines, Some(d.maxPagesCount))
  }

  // ---------------------------------------------------------------------------
  // The results are the long-key pages, losing nothing.
  // ---------------------------------------------------------------------------

  function LinksOfResults(rs: seq<LinkResult>): OrdMap<LinkV1> {
    seq(|rs|, j requires 0 <= j < |rs| => (rs[j].id, LinkV1(rs[j].status, rs[j].url, rs[j].dateChecked)))
  }

  function PageOfResult(r: PageResult): PageV1 {
    PageV1(r.status, if r.links.Some? then Some(LinksOfResults(r.links.value)) else None,
           r.url, r.dateChecked, r.title, r.description, r.keywords, r.content)
  }

  function PagesOfResults(rs: seq<PageResult>): OrdMap<PageV1> {
    seq(|rs|, i requires 0 <= i < |rs| => (rs[i].id, PageOfResult(rs[i])))
  }

  lemma LinksRoundTrip(links: OrdMap<LinkV1>)
    ensures LinksOfResults(LinkResults(links)) == links
  {
    var r := LinksOfResults(LinkResults(links));
    forall j | 0 <= j < |links| ensures r[j] == links[j] {
      var l := links[j].1;
      assert r[j].1 == LinkV1(l.status, l.url, l.dateChecked);
    }
  }

  lemma PageRoundTrip(pageID: string, p: PageV1)
    ensures PageOfResult(PageResultOf(pageID, p)) == p
  {
    if p.links.Some? {
      LinksRoundTrip(p.links.value);
    }
  }

  /** Every page, in order, with its id and every long-key field including
      its links, can be read back from the results. */
  lemma PagesRoundTrip(pages: OrdMap<PageV1>)
    ensures PagesOfResults(PageResults(pages)) == pages
  {
    var r := PagesOfResults(PageResults(pages));
    forall i | 0 <= i < |pages| ensures r[i] == pages[i] {
      PageRoundTrip(pages[i].0, pages[i].1);
    }
  }

  /** A found record's results carry its request date, its search-engine
      flag, its page limit and, when it has pages, all of them; a missing
      record gives the defaults with no `maxPagesCount` key. */
  lemma ResultsLossless(id: string, found: Option<AuditArray>)
    ensures var r := ResultsOf(id, found);
      && r.id == id
      && (found.None? ==> r == AuditResults(id, None, [], None, None))
      && (found.Some? ==>
            && r.dateRequested == found.value.v1.dateRequested
            && r.allowSearchEngines == found.value.v1.allowSearchEngines
            && r.maxPagesCount == Some(found.value.v1.maxPagesCount)
            && (found.value.v1.pages.Some? ==> PagesOfResults(r.pages) == found.value.v1.pages.value)
            && (found.value.v1.pages.None? ==> r.pages == []))
  {
    if found.Some? && found.value.v1.pages.Some? {
      PagesRoundTrip(found.value.v1.pages.value);
    }
  }

  /** As with the status, a record in the engine's short-key format shows no
      pages and no dates. */
  lemma ShortKeyRecordsShowNothing(id: string, a: AuditArray)
    requires a.v1 == NoV1
    ensures ResultsOf(id, Some(a)) == AuditResults(id, None, [], None, Some(None))
  {
  }

  // ---------------------------------------------------------------------------
  // The loops of lines 158-184.
  // ---------------------------------------------------------------------------

  method LinkResultsLoop(links: OrdMap<LinkV1>) returns (r: seq<LinkResult>)
    ensures r == LinkResults(links)
  {
    r := [];
    for j := 0 to |links|
      invariant |r| == j
      invariant forall k :: 0 <= k < j ==> r[k] == LinkResultOf(links[k].0, links[k].1)
    {
      var pageLink := links[j].1;
      r := r + [LinkResult(links[j].0, pageLink.url, pageLink.status, pageLink.dateChecked)];
    }
  }

  method PageResultsLoop(pages: OrdMap<PageV1>) returns (r: seq<PageResult>)
    ensures r == PageResults(pages)
  {
    r := [];
    for i := 0 to |pages|
      invariant |r| == i
      invariant forall k :: 0 <= k < i ==> r[k] == PageResultOf(pages[k].0, pages[k].1)
    {
      var pageData := pages[i].1;
      var pageLinksResult: Option<seq<LinkResult>> := None;
      if pageData.links.Some? {
        var links := LinkResultsLoop(pageData.links.value);
        pageLinksResult := Some(links);
      }
      r := r + [PageResult(pages[i].0, pageData.url, pageData.status, pageData.dateChecked, pageData.title,
                           pageData.description, pageData.keywords, pageData.content, pageLinksResult)];
    }
  }

  /** Lines 147-186 given what `getData` returned. */
  method ResultsLoop(id: string, found: Option<AuditArray>) returns (r: AuditResults)
    ensures r == ResultsOf(id, found)
  {
    r := AuditResults(id, None, [], None, None);
    if found.Some? {
      var data := found.value.v1;
      r := r.(dateRequested := data.dateRequested, maxPagesCount := Some(data.maxPagesCount));
      if data.pages.Some? {
        var pages := PageResultsLoop(data.pages.value);
        r := r.(pages := pages);
      }
      r := r.(allowSearchEngines := data.allowSearchEngines);
    }
  }
}
