/** `updateLinkData` (classes/Audits/Internal/Utilities.php): a link URL's
    status is taken from the status cache or requested once, and then written
    into every link of every page that has that short URL and no status yet. */
module LinkCheck {
  import opened PhpArray
  import opened Urls
  import opened Records
  import opened Platform

  /** The one link a match patches: same short URL, no status yet. */
  predicate Awaits(l: LinkV2, url: string) {
    l.url == Some(url) && l.status.None?
  }

  function PatchLink(l: LinkV2, url: string, status: int, date: string): LinkV2 {
    if Awaits(l, url) then l.(status := Some(status), date := Some(date)) else l
  }

  function PatchLinks(links: OrdMap<LinkV2>, url: string, status: int, date: string): OrdMap<LinkV2> {
    MapValues(links, (l: LinkV2) => PatchLink(l, url, status, date))
  }

  function PatchPage(p: PageV2, url: string, status: int, date: string): PageV2 {
    if p.links.Some? then p.(links := Some(PatchLinks(p.links.value, url, status, date))) else p
  }

  function PatchPages(pages: OrdMap<PageV2>, url: string, status: int, date: string): OrdMap<PageV2> {
    MapValues(pages, (p: PageV2) => PatchPage(p, url, status, date))
  }

  /** `foreach` over a null `p` does nothing. */
  function PatchRecordPages(pages: Option<OrdMap<PageV2>>, url: string, status: int, date: string): Option<OrdMap<PageV2>> {
    if pages.Some? then Some(PatchPages(pages.value, url, status, date)) else None
  }

  /** What the patch does to the `j`-th link of the `i`-th page: a link
      awaiting this URL gets the status and date, and any other link, every
      other link field, every page field but the links, and every id stay. */
  lemma PatchedLink(pages: OrdMap<PageV2>, url: string, status: int, date: string, i: nat, j: nat)
    requires i < |pages| && pages[i].1.links.Some? && j < |pages[i].1.links.value|
    ensures var r := PatchPages(pages, url, status, date);
      var l := pages[i].1.links.value[j];
      && r[i].0 == pages[i].0
      && r[i].1 == pages[i].1.(links := r[i].1.links)
      && r[i].1.links.Some? && Keys(r[i].1.links.value) == Keys(pages[i].1.links.value)
      && r[i].1.links.value[j].0 == l.0
      && (Awaits(l.1, url) ==>
            r[i].1.links.value[j].1 == l.1.(status := Some(status), date := Some(date)))
      && (!Awaits(l.1, url) ==> r[i].1.links.value[j].1 == l.1)
  {
  }

  /** A page without links is left as it is. */
  lemma PatchedPageWithoutLinks(pages: OrdMap<PageV2>, url: string, status: int, date: string, i: nat)
    requires i < |pages| && pages[i].1.links.None?
    ensures PatchPages(pages, url, status, date)[i] == pages[i]
  {
  }

  /** Afterwards no link of any page still awaits this URL. */
  lemma PatchSettles(pages: OrdMap<PageV2>, url: string, status: int, date: string)
    ensures var r := PatchPages(pages, url, status, date);
      forall i, j :: 0 <= i < |r| && r[i].1.links.Some? && 0 <= j < |r[i].1.links.value| ==>
        !Awaits(r[i].1.links.value[j].1, url)
  {
  }

  /** Once the patch has run, running it again, for any status and date,
      changes nothing: the first result found for a URL is the one kept. */
  lemma {:induction false} PatchIdempotent(pages: OrdMap<PageV2>, url: string, status: int, date: string,
                                           status2: int, date2: string)
    ensures var r := PatchPages(pages, url, status, date);
      PatchPages(r, url, status2, date2) == r
  {
    var r := PatchPages(pages, url, status, date);
    var r2 := PatchPages(r, url, status2, date2);
    forall i | 0 <= i < |r| ensures r2[i] == r[i] {
      var p := r[i].1;
      if p.links.Some? {
        var ls := p.links.value;
        assert PatchLinks(ls, url, status2, date2) == ls by {
          forall j | 0 <= j < |ls| ensures PatchLinks(ls, url, status2, date2)[j] == ls[j] {
            PatchedLink(pages, url, status, date, i, j);
          }
        }
      }
    }
  }

  /** The inner loop of Utilities.php lines 297-302, writing in place. */
  method PatchLinksLoop(links: OrdMap<LinkV2>, url: string, status: int, date: string) returns (r: OrdMap<LinkV2>)
    ensures r == PatchLinks(links, url, status, date)
  {
    r := links;
    for j := 0 to |links|
      invariant |r| == |links|
      invariant forall k :: 0 <= k < j ==> r[k] == (links[k].0, PatchLink(links[k].1, url, status, date))
      invariant forall k :: j <= k < |links| ==> r[k] == links[k]
    {
      var linkData := links[j].1;
      if linkData.url == Some(url) && linkData.status.None? {
        r := r[j := (links[j].0, linkData.(status := Some(status), date := Some(date)))];
      }
    }
  }

  /** The loop of Utilities.php lines 295-304, writing in place. */
  method PatchPagesLoop(pages: OrdMap<PageV2>, url: string, status: int, date: string) returns (r: OrdMap<PageV2>)
    ensures r == PatchPages(pages, url, status, date)
  {
    r := pages;
    for i := 0 to |pages|
      invariant |r| == |pages|
      invariant forall k :: 0 <= k < i ==> r[k] == (pages[k].0, PatchPage(pages[k].1, url, status, date))
      invariant forall k :: i <= k < |pages| ==> r[k] == pages[k]
    {
      var pageData := pages[i].1;
      if pageData.links.Some? {
        var links := PatchLinksLoop(pageData.links.value, url, status, date);
        r := r[i := (pages[i].0, pageData.(links := Some(links)))];
      }
    }
  }

  // ---------------------------------------------------------------------------
  // The whole of updateLinkData.
  // ---------------------------------------------------------------------------

  /** The record returned, the status cache after, and the URL requested
      (without its body) when the cache had no entry for it. */
  datatype LinkUpdate = LinkUpdate(data: AuditV2, cache: StatusCache, requested: Option<string>)

  /** `None` when the record has no base URL: `getFullURL` then fails with a TypeError. */
  function UpdateLinkData(md5: string -> string, id: string, d: AuditV2, url: string,
                          cache: StatusCache, w: World, now: string): Option<LinkUpdate>
  {
    if d.url.None? then None
    else
      var full := FullURL(d.url.value, url);
      var hit := CachedStatusOf(cache, md5, id, full);
      if hit.Some? then
        Some(LinkUpdate(d.(pages := PatchRecordPages(d.pages, url, hit.value.status, hit.value.date)), cache, None))
      else
        var status := w.head(full);
        Some(LinkUpdate(d.(pages := PatchRecordPages(d.pages, url, status, now)),
                        cache[UrlStatusKey(md5, id, full) := CachedStatus(status, now)], Some(full)))
  }

  /** The URL is requested, and the cache written, only on a cache miss; the
      status written into the links is the cached one on a hit and the
      response's on a miss; nothing but the pages changes in the record. */
  lemma UpdateLinkDataEffects(md5: string -> string, id: string, d: AuditV2, url: string,
                              cache: StatusCache, w: World, now: string)
    requires d.url.Some?
    ensures var full := FullURL(d.url.value, url);
      var hit := CachedStatusOf(cache, md5, id, full);
      var u := UpdateLinkData(md5, id, d, url, cache, w, now);
      && u.Some?
      && u.value.data == d.(pages := u.value.data.pages)
      && (u.value.requested.Some? <==> hit.None?)
      && (hit.Some? ==>
            && u.value.cache == cache
            && u.value.data.pages == PatchRecordPages(d.pages, url, hit.value.status, hit.value.date))
      && (hit.None? ==>
            && u.value.requested == Some(full)
            && CachedStatusOf(u.value.cache, md5, id, full) == Some(CachedStatus(w.head(full), now))
            && u.value.data.pages == PatchRecordPages(d.pages, url, w.head(full), now))
  {
  }

  /** A second update for the same URL finds the status in the cache and
      leaves the record as the first one left it. */
  lemma UpdateLinkDataIdempotent(md5: string -> string, id: string, d: AuditV2, url: string,
                                 cache: StatusCache, w: World, now: string, now2: string)
    requires d.url.Some?
    ensures var u := UpdateLinkData(md5, id, d, url, cache, w, now).value;
      var u2 := UpdateLinkData(md5, id, u.data, url, u.cache, w, now2);
      u2 == Some(LinkUpdate(u.data, u.cache, None))
  {
    var u := UpdateLinkData(md5, id, d, url, cache, w, now).value;
    var full := FullURL(d.url.value, url);
    var hit := CachedStatusOf(u.cache, md5, id, full).value;
    if d.pages.Some? {
      var h0 := CachedStatusOf(cache, md5, id, full);
      if h0.Some? {
        PatchIdempotent(d.pages.value, url, h0.value.status, h0.value.date, hit.status, hit.date);
      } else {
        PatchIdempotent(d.pages.value, url, w.head(full), now, hit.status, hit.date);
      }
    }
  }

  /** The URL `checkPageLink` updates the links for: the page and the link
      are there, the link has no status yet, and it has a URL (a null one
      is passed to `updateLinkData` and fails with a TypeError). */
  function LinkToSettle(d: AuditV2, pageID: string, linkID: string): Option<string> {
    if d.pages.Some? && HasKey(d.pages.value, pageID) then
      var p := Get(d.pages.value, pageID).value;
      if p.links.Some? && HasKey(p.links.value, linkID) then
        var l := Get(p.links.value, linkID).value;
        if l.status.None? then l.url else None
      else None
    else None
  }

  /** After the update, the link `checkPageLink` was queued for has its
      status, so running it again returns without writing. */
  lemma SettledAfterUpdate(md5: string -> string, id: string, d: AuditV2, pageID: string, linkID: string,
                           cache: StatusCache, w: World, now: string)
    requires d.url.Some? && LinkToSettle(d, pageID, linkID).Some?
    ensures var url := LinkToSettle(d, pageID, linkID).value;
      var u := UpdateLinkData(md5, id, d, url, cache, w, now);
      && u.Some?
      && LinkToSettle(u.value.data, pageID, linkID).None?
  {
    var url := LinkToSettle(d, pageID, linkID).value;
    var full := FullURL(d.url.value, url);
    var hit := CachedStatusOf(cache, md5, id, full);
    var status := if hit.Some? then hit.value.status else w.head(full);
    var date := if hit.Some? then hit.value.date else now;
    var u := UpdateLinkData(md5, id, d, url, cache, w, now).value;
    assert u.data.pages == PatchRecordPages(d.pages, url, status, date);
    var ps := d.pages.value;
    var p := Get(ps, pageID).value;
    GetMapValues(ps, (p: PageV2) => PatchPage(p, url, status, date), pageID);
    var p' := PatchPage(p, url, status, date);
    assert Get(u.data.pages.value, pageID) == Some(p');
    var ls := p.links.value;
    GetMapValues(ls, (l: LinkV2) => PatchLink(l, url, status, date), linkID);
    var l := Get(ls, linkID).value;
    assert Awaits(l, url);
    assert Get(p'.links.value, linkID) == Some(PatchLink(l, url, status, date));
  }
}
