/** `checkPage` (classes/Audits/Internal/Utilities.php): the page is fetched,
    its status and date are recorded and cached, and on a 200 response its
    head fields, text and links are rebuilt from the document, each link
    taking its status from the cache or getting a check-link task. */
module PageCheck {
  import opened PhpArray
  import opened PhpString
  import opened Urls
  import opened Records
  import opened Platform

  /** An href, once trimmed, is followed when it is non-empty and is not a
      script, mail, phone, Viber or in-page link. */
  predicate Qualifies(loc: string) {
    |loc| > 0 && forall p :: p in SkippedPrefixes ==> !StartsWith(loc, p)
  }

  const SkippedPrefixes: seq<string> := ["javascript:", "mailto:", "tel:", "viber:", "#"]

  /** What the link id is the hash of: `$linkLocation . '-' . $counter`. */
  function LinkIdSource(loc: string, counter: nat): string {
    loc + "-" + NatToDecimal(counter)
  }

  /** In `a + "-" + d` with only digits in `d`, the last dash sits right before `d`. */
  lemma LastDash(a: string, d: string)
    requires forall i :: 0 <= i < |d| ==> IsDigit(d[i])
    ensures (a + "-" + d)[|a|] == '-'
    ensures forall i :: |a| < i < |a + "-" + d| ==> (a + "-" + d)[i] != '-'
  {
    var s := a + "-" + d;
    forall i | |a| < i < |s| ensures s[i] != '-' {
      assert s[i] == d[i - |a| - 1];
    }
  }

  /** The id source determines both the href and the counter, so links found
      at different counter values get different sources. */
  lemma LinkIdSourceInjective(l1: string, c1: nat, l2: string, c2: nat)
    requires LinkIdSource(l1, c1) == LinkIdSource(l2, c2)
    ensures l1 == l2 && c1 == c2
  {
    var s := LinkIdSource(l1, c1);
    var d1, d2 := NatToDecimal(c1), NatToDecimal(c2);
    LastDash(l1, d1);
    LastDash(l2, d2);
    assert |l1| == |l2|;
    assert l1 == s[..|l1|] == l2;
    assert d1 == s[|l1| + 1..] == d2;
    NatToDecimalInjective(c1, c2);
  }

  /** Check-link tasks of one audit share an id exactly when they are for the
      same short URL, so `ignoreIfExists` keeps one task per short URL. */
  lemma CheckLinkIdsDistinguishUrls(md5: string -> string, id: string, s1: string, s2: string)
    requires Injective(md5)
    ensures TaskId(CheckLinkFor(md5, id, s1)) == TaskId(CheckLinkFor(md5, id, s2)) <==> s1 == s2
  {
    var p := CheckLinkPrefix + id + "-";
    if TaskId(CheckLinkFor(md5, id, s1)) == TaskId(CheckLinkFor(md5, id, s2)) {
      var t := p + md5(s1);
      assert t == p + md5(s2);
      assert md5(s1) == t[|p|..] == md5(s2);
    }
  }

  // ---------------------------------------------------------------------------
  // The anchor loop (Utilities.php lines 198-228).
  // ---------------------------------------------------------------------------

  /** The loop's state: `$counter`, `$pageData['l']` and the tasks queued. */
  datatype LinkScan = LinkScan(counter: nat, links: OrdMap<LinkV2>, misses: seq<Task>)

  /** The entry written for a qualifying anchor found as the `counter`-th:
      its id, its short URL and trimmed title, and the cached status and
      date when the (trimmed, unshortened) href is in the status cache. */
  function LinkEntry(md5: string -> string, id: string, base: string, cache: StatusCache,
                     a: Anchor, counter: nat): (string, LinkV2)
  {
    (LinkId(md5, a, counter), LinkValue(md5, id, base, cache, a))
  }

  /** `md5($linkLocation . '-' . $counter)` */
  function LinkId(md5: string -> string, a: Anchor, counter: nat): string {
    md5(LinkIdSource(Trim(a.href), counter))
  }

  function LinkValue(md5: string -> string, id: string, base: string, cache: StatusCache, a: Anchor): LinkV2 {
    var loc := Trim(a.href);
    var hit := CachedStatusOf(cache, md5, id, loc);
    LinkV2(Some(ShortURL(base, loc)), Some(Trim(a.title)),
           if hit.Some? then Some(hit.value.status) else None,
           if hit.Some? then Some(hit.value.date) else None)
  }

  /** One pass of the loop body. */
  function ScanAnchor(st: LinkScan, md5: string -> string, id: string, base: string,
                      cache: StatusCache, a: Anchor): LinkScan
  {
    var loc := Trim(a.href);
    if !Qualifies(loc) then st
    else
      var c := st.counter + 1;
      var e := LinkEntry(md5, id, base, cache, a, c);
      var hit := CachedStatusOf(cache, md5, id, loc);
      LinkScan(c, Put(st.links, e.0, e.1),
               if hit.Some? then st.misses else st.misses + [CheckLinkFor(md5, id, ShortURL(base, loc))])
  }

  function ScanAnchors(md5: string -> string, id: string, base: string, cache: StatusCache,
                       anchors: seq<Anchor>): LinkScan
  {
    if |anchors| == 0 then LinkScan(0, [], [])
    else ScanAnchor(ScanAnchors(md5, id, base, cache, anchors[..|anchors| - 1]),
                    md5, id, base, cache, anchors[|anchors| - 1])
  }

  predicate QualifyingAnchor(a: Anchor) {
    Qualifies(Trim(a.href))
  }

  /** The anchors the loop follows, in order. */
  function Qualifying(anchors: seq<Anchor>): seq<Anchor> {
    if |anchors| == 0 then []
    else
      var last := anchors[|anchors| - 1];
      Qualifying(anchors[..|anchors| - 1]) + (if QualifyingAnchor(last) then [last] else [])
  }

  /** The counter counts the qualifying anchors, repeated hrefs included. */
  lemma {:induction false} CounterCountsQualifying(md5: string -> string, id: string, base: string,
                                                   cache: StatusCache, anchors: seq<Anchor>)
    ensures ScanAnchors(md5, id, base, cache, anchors).counter == |Qualifying(anchors)|
  {
    if |anchors| > 0 {
      CounterCountsQualifying(md5, id, base, cache, anchors[..|anchors| - 1]);
    }
  }

  /** `f` applied to each element and its position counted from 1. */
  function Numbered<T, U>(q: seq<T>, f: (T, nat) -> U): (r: seq<U>)
    ensures |r| == |q| && forall k :: 0 <= k < |q| ==> r[k] == f(q[k], k + 1)
  {
    seq(|q|, k requires 0 <= k < |q| => f(q[k], k + 1))
  }

  lemma NumberedSnoc<T, U>(q: seq<T>, a: T, f: (T, nat) -> U)
    ensures Numbered(q + [a], f) == Numbered(q, f) + [f(a, |q| + 1)]
  {
    assert forall k :: 0 <= k < |q| ==> (q + [a])[k] == q[k];
  }

  /** Entries whose keys differ whenever their counters do: the next entry
      has a new key, so writing it appends it. */
  lemma NumberedPutFresh<T, V>(q0: seq<T>, links: OrdMap<V>, a: T, f: (T, nat) -> (string, V))
    requires forall x: T, y: T, c1: nat, c2: nat :: c1 != c2 ==> f(x, c1).0 != f(y, c2).0
    requires links == Numbered(q0, f)
    ensures Put(links, f(a, |q0| + 1).0, f(a, |q0| + 1).1) == Numbered(q0 + [a], f)
  {
    var e := f(a, |q0| + 1);
    forall k | 0 <= k < |links| ensures links[k].0 != e.0 {
      assert links[k] == f(q0[k], k + 1);
    }
    assert !HasKey(links, e.0);
    NumberedSnoc(q0, a, f);
  }

  /** Under an injective hash two link ids with different counters differ,
      whatever the hrefs. */
  lemma LinkIdsDiffer(md5: string -> string, a1: Anchor, c1: nat, a2: Anchor, c2: nat)
    requires Injective(md5) && c1 != c2
    ensures LinkId(md5, a1, c1) != LinkId(md5, a2, c2)
  {
    var s1, s2 := LinkIdSource(Trim(a1.href), c1), LinkIdSource(Trim(a2.href), c2);
    if md5(s1) == md5(s2) {
      InjectiveAt(md5, s1, s2);
      LinkIdSourceInjective(Trim(a1.href), c1, Trim(a2.href), c2);
    }
  }

  /** Appending the next qualifying anchor's entry extends the numbered list. */
  lemma LinksStep(md5: string -> string, id: string, base: string, cache: StatusCache,
                  q0: seq<Anchor>, links: OrdMap<LinkV2>, a: Anchor)
    requires Injective(md5)
    requires links == Numbered(q0, (b: Anchor, k: nat) => LinkEntry(md5, id, base, cache, b, k))
    ensures var e := LinkEntry(md5, id, base, cache, a, |q0| + 1);
      Put(links, e.0, e.1) ==
        Numbered(q0 + [a], (b: Anchor, k: nat) => LinkEntry(md5, id, base, cache, b, k))
  {
    var f := (b: Anchor, k: nat) => LinkEntry(md5, id, base, cache, b, k);
    forall x: Anchor, y: Anchor, c1: nat, c2: nat | c1 != c2 ensures f(x, c1).0 != f(y, c2).0 {
      LinkIdsDiffer(md5, x, c1, y, c2);
    }
    NumberedPutFresh(q0, links, a, f);
  }

  /** With an injective hash, every qualifying anchor gets its own link,
      in order, even when hrefs repeat: the `k`-th is keyed by the hash of its
      href and `k`, and holds its short URL, title and cached status. */
  lemma {:induction false} LinksOfQualifying(md5: string -> string, id: string, base: string,
                                             cache: StatusCache, anchors: seq<Anchor>)
    requires Injective(md5)
    ensures ScanAnchors(md5, id, base, cache, anchors).links ==
      Numbered(Qualifying(anchors), (b: Anchor, k: nat) => LinkEntry(md5, id, base, cache, b, k))
  {
    if |anchors| > 0 {
      var init := anchors[..|anchors| - 1];
      var a := anchors[|anchors| - 1];
      LinksOfQualifying(md5, id, base, cache, init);
      CounterCountsQualifying(md5, id, base, cache, init);
      var st := ScanAnchors(md5, id, base, cache, init);
      var q0 := Qualifying(init);
      assert ScanAnchors(md5, id, base, cache, anchors) == ScanAnchor(st, md5, id, base, cache, a);
      assert Qualifying(anchors) == q0 + if QualifyingAnchor(a) then [a] else [];
      ScanAnchorLinks(md5, id, base, cache, q0, st, a);
    }
  }

  /** One anchor more: a qualifying one appends its numbered entry. */
  lemma ScanAnchorLinks(md5: string -> string, id: string, base: string, cache: StatusCache,
                        q0: seq<Anchor>, st: LinkScan, a: Anchor)
    requires Injective(md5)
    requires st.counter == |q0|
    requires st.links == Numbered(q0, (b: Anchor, k: nat) => LinkEntry(md5, id, base, cache, b, k))
    ensures ScanAnchor(st, md5, id, base, cache, a).links ==
      Numbered(q0 + if QualifyingAnchor(a) then [a] else [], (b: Anchor, k: nat) => LinkEntry(md5, id, base, cache, b, k))
  {
    if QualifyingAnchor(a) {
      LinksStep(md5, id, base, cache, q0, st.links, a);
    } else {
      assert q0 + [] == q0;
    }
  }

  /** The anchor's href is not in the status cache and `t` is its check-link task. */
  predicate IsMissFor(md5: string -> string, id: string, base: string, cache: StatusCache, b: Anchor, t: Task) {
    CachedStatusOf(cache, md5, id, Trim(b.href)).None? && t == CheckLinkFor(md5, id, ShortURL(base, Trim(b.href)))
  }

  lemma MissesStep(st: LinkScan, md5: string -> string, id: string, base: string,
                   cache: StatusCache, a: Anchor, t: Task)
    ensures t in ScanAnchor(st, md5, id, base, cache, a).misses <==>
      t in st.misses || (QualifyingAnchor(a) && IsMissFor(md5, id, base, cache, a, t))
  {
    var loc := Trim(a.href);
    var r := ScanAnchor(st, md5, id, base, cache, a);
    if !Qualifies(loc) {
      assert r == st;
    } else if CachedStatusOf(cache, md5, id, loc).Some? {
      assert r.misses == st.misses;
    } else {
      assert r.misses == st.misses + [CheckLinkFor(md5, id, ShortURL(base, loc))];
    }
  }

  /** A qualifying anchor whose href is in the status cache gets no task; the
      tasks queued are exactly one check-link task per qualifying anchor that
      is not, for its short URL. */
  lemma {:induction false} MissesOfQualifying(md5: string -> string, id: string, base: string,
                                              cache: StatusCache, anchors: seq<Anchor>, t: Task)
    ensures var q := Qualifying(anchors);
      t in ScanAnchors(md5, id, base, cache, anchors).misses <==>
        exists k :: 0 <= k < |q| && IsMissFor(md5, id, base, cache, q[k], t)
  {
    if |anchors| > 0 {
      var init := anchors[..|anchors| - 1];
      var a := anchors[|anchors| - 1];
      MissesOfQualifying(md5, id, base, cache, init, t);
      var st := ScanAnchors(md5, id, base, cache, init);
      assert ScanAnchors(md5, id, base, cache, anchors) == ScanAnchor(st, md5, id, base, cache, a);
      MissesStep(st, md5, id, base, cache, a, t);
      var q0 := Qualifying(init);
      assert Qualifying(anchors) == if QualifyingAnchor(a) then q0 + [a] else q0;
      ExistsCond(q0, Qualifying(anchors), a, QualifyingAnchor(a), (b: Anchor) => IsMissFor(md5, id, base, cache, b, t));
    }
  }

  /** The loop at Utilities.php lines 198-228, the tasks collected in order. */
  method ScanAnchorsLoop(md5: string -> string, id: string, base: string, cache: StatusCache,
                         anchors: seq<Anchor>) returns (counter: nat, links: OrdMap<LinkV2>, misses: seq<Task>)
    ensures LinkScan(counter, links, misses) == ScanAnchors(md5, id, base, cache, anchors)
  {
    counter, links, misses := 0, [], [];
    for i := 0 to |anchors|
      invariant LinkScan(counter, links, misses) == ScanAnchors(md5, id, base, cache, anchors[..i])
    {
      assert anchors[..i + 1][..i] == anchors[..i];
      counter, links, misses := ScanAnchorStep(md5, id, base, cache, counter, links, misses, anchors[i]);
    }
    assert anchors[..|anchors|] == anchors;
  }

  /** The body of that loop for one anchor. */
  method ScanAnchorStep(md5: string -> string, id: string, base: string, cache: StatusCache,
                        counter0: nat, links0: OrdMap<LinkV2>, misses0: seq<Task>, anchor: Anchor)
    returns (counter: nat, links: OrdMap<LinkV2>, misses: seq<Task>)
    ensures LinkScan(counter, links, misses) == ScanAnchor(LinkScan(counter0, links0, misses0), md5, id, base, cache, anchor)
  {
    counter, links, misses := counter0, links0, misses0;
    var linkLocation := Trim(anchor.href);
    if Qualifies(linkLocation) {
      counter := counter + 1;
      var linkID := md5(LinkIdSource(linkLocation, counter));
      var shortURL := ShortURL(base, linkLocation);
      var linkTitle := Trim(anchor.title);
      var hit := CachedStatusOf(cache, md5, id, linkLocation);
      if hit.Some? {
        links := Put(links, linkID, LinkV2(Some(shortURL), Some(linkTitle), Some(hit.value.status), Some(hit.value.date)));
      } else {
        links := Put(links, linkID, LinkV2(Some(shortURL), Some(linkTitle), None, None));
        misses := misses + [CheckLinkFor(md5, id, shortURL)];
      }
    }
  }


  // ---------------------------------------------------------------------------
  // The page and the record.
  // ---------------------------------------------------------------------------

  /** What `checkPage` does to a page whose URL has been fetched: the status
      and date always; on 200 also every head field, the text and the links,
      rebuilt from the document. `cache` is the status cache after the page's
      own URL has been written to it. */
  datatype CheckedPage = CheckedPage(page: PageV2, misses: seq<Task>)

  function CheckPageEntry(md5: string -> string, id: string, base: string, cache: StatusCache,
                          page: PageV2, r: Response, doc: HtmlDoc, now: string): CheckedPage
  {
    var p := page.(status := Some(r.status), date := Some(now));
    if r.status != 200 then CheckedPage(p, [])
    else
      var scan := ScanAnchors(md5, id, base, cache, doc.anchors);
      var h := doc.head;
      CheckedPage(
        p.(title := if h.Some? then h.value.title else None,
           description := if h.Some? then h.value.description else None,
           keywords := if h.Some? then h.value.keywords else None,
           ogImage := if h.Some? then h.value.ogImage else None,
           content := doc.bodyText,
           links := Some(scan.links)),
        scan.misses)
  }

  /** `checkPage`'s effect: the record saved, the status cache and the tasks
      queued, when the page exists and both URLs are set. */
  datatype PageCheckOutcome = PageCheckOutcome(data: AuditV2, cache: StatusCache, misses: seq<Task>, fetched: string)

  /** The full URL of the page, when both the base and the page URL are set. */
  function PageURL(d: AuditV2, pageID: string): Option<string> {
    if d.pages.Some? && HasKey(d.pages.value, pageID) then
      var page := Get(d.pages.value, pageID).value;
      if d.url.Some? && page.url.Some? then Some(FullURL(d.url.value, page.url.value)) else None
    else None
  }

  function CheckPageOutcome(md5: string -> string, id: string, pageID: string, d: AuditV2,
                            cache: StatusCache, w: World, now: string): Option<PageCheckOutcome>
  {
    if PageURL(d, pageID).None? then None
    else
      var full := PageURL(d, pageID).value;
      var page := Get(d.pages.value, pageID).value;
      var r := w.get(full);
      var cache' := cache[UrlStatusKey(md5, id, full) := CachedStatus(r.status, now)];
      var c := CheckPageEntry(md5, id, d.url.value, cache', page, r, w.parseHtml(r.content), now);
      Some(PageCheckOutcome(d.(pages := Some(Put(d.pages.value, pageID, c.page))), cache', c.misses, full))
  }

  /** Utilities.php lines 150-230 on the short-key record, with `cache` the
      status cache before the page's own status is written to it. */
  method CheckPageSteps(md5: string -> string, id: string, pageID: string, d: AuditV2,
                        cache: StatusCache, w: World, now: string) returns (o: Option<PageCheckOutcome>)
    ensures o == CheckPageOutcome(md5, id, pageID, d, cache, w, now)
  {
    if !(d.pages.Some? && HasKey(d.pages.value, pageID)) {
      return None;
    }
    var pageData := Get(d.pages.value, pageID).value;
    if d.url.None? || pageData.url.None? {
      return None;
    }
    var fullPageURL := FullURL(d.url.value, pageData.url.value);
    var result := w.get(fullPageURL);
    pageData := pageData.(status := Some(result.status), date := Some(now));
    var cache' := cache[UrlStatusKey(md5, id, fullPageURL) := CachedStatus(result.status, now)];
    var misses: seq<Task> := [];
    if result.status == 200 {
      pageData := pageData.(title := None, description := None, keywords := None,
                            ogImage := None, links := Some([]), content := None);
      var doc := w.parseHtml(result.content);
      if doc.head.Some? {
        var h := doc.head.value;
        pageData := pageData.(title := h.title, description := h.description,
                              keywords := h.keywords, ogImage := h.ogImage);
      }
      if doc.bodyText.Some? {
        pageData := pageData.(content := doc.bodyText);
      }
      var counter, links, queued := ScanAnchorsLoop(md5, id, d.url.value, cache', doc.anchors);
      pageData := pageData.(links := Some(links));
      misses := queued;
    }
    o := Some(PageCheckOutcome(d.(pages := Some(Put(d.pages.value, pageID, pageData))), cache', misses, fullPageURL));
  }

  /** The page's own status is cached under its full URL with the check
      date, and only that entry is added to the cache. */
  lemma CheckPageCaches(md5: string -> string, id: string, pageID: string, d: AuditV2,
                        cache: StatusCache, w: World, now: string)
    requires CheckPageOutcome(md5, id, pageID, d, cache, w, now).Some?
    ensures var o := CheckPageOutcome(md5, id, pageID, d, cache, w, now).value;
      && PageURL(d, pageID) == Some(o.fetched)
      && o.cache == cache[UrlStatusKey(md5, id, o.fetched) := CachedStatus(w.get(o.fetched).status, now)]
  {
  }

  /** Only the checked page changes: every other field of the record, the
      set and order of page ids, and every other page stay as they were. */
  lemma CheckPageFrame(md5: string -> string, id: string, pageID: string, d: AuditV2,
                       cache: StatusCache, w: World, now: string)
    requires CheckPageOutcome(md5, id, pageID, d, cache, w, now).Some?
    ensures var o := CheckPageOutcome(md5, id, pageID, d, cache, w, now).value;
      && o.data.pages.Some?
      && o.data == d.(pages := o.data.pages)
      && Keys(o.data.pages.value) == Keys(d.pages.value)
      && forall k :: k != pageID ==> Get(o.data.pages.value, k) == Get(d.pages.value, k)
  {
    var o := CheckPageOutcome(md5, id, pageID, d, cache, w, now).value;
    var ps := d.pages.value;
    var np := Get(o.data.pages.value, pageID).value;
    assert o.data.pages.value == Put(ps, pageID, np) by {
      GetPut(ps, pageID, CheckPageEntry(md5, id, d.url.value,
        cache[UrlStatusKey(md5, id, o.fetched) := CachedStatus(w.get(o.fetched).status, now)],
        Get(ps, pageID).value, w.get(o.fetched), w.parseHtml(w.get(o.fetched).content), now).page);
    }
    GetPut(ps, pageID, np);
  }

  /** A page that does not answer 200 only gets its status and date;
      nothing is queued. */
  lemma CheckPageFailure(md5: string -> string, id: string, base: string, cache: StatusCache,
                         page: PageV2, r: Response, doc: HtmlDoc, now: string)
    requires r.status != 200
    ensures CheckPageEntry(md5, id, base, cache, page, r, doc, now) ==
      CheckedPage(page.(status := Some(r.status), date := Some(now)), [])
  {
  }

  /** A page that answers 200 has every head field and the text reset and
      taken from the document, and its links rebuilt from empty: one per
      qualifying anchor under an injective hash. */
  lemma CheckPageSuccess(md5: string -> string, id: string, base: string, cache: StatusCache,
                         page: PageV2, r: Response, doc: HtmlDoc, now: string)
    requires r.status == 200
    ensures var c := CheckPageEntry(md5, id, base, cache, page, r, doc, now).page;
      && c.url == page.url && c.status == Some(200) && c.date == Some(now)
      && c.title == (if doc.head.Some? then doc.head.value.title else None)
      && c.description == (if doc.head.Some? then doc.head.value.description else None)
      && c.keywords == (if doc.head.Some? then doc.head.value.keywords else None)
      && c.ogImage == (if doc.head.Some? then doc.head.value.ogImage else None)
      && c.content == doc.bodyText
      && c.links == Some(ScanAnchors(md5, id, base, cache, doc.anchors).links)
      && (Injective(md5) ==> |c.links.value| == |Qualifying(doc.anchors)|)
  {
    if Injective(md5) {
      LinksOfQualifying(md5, id, base, cache, doc.anchors);
    }
  }

  /** Checking a page again with the same responses changes nothing more:
      links are rebuilt, never duplicated. */
  lemma CheckPageIdempotent(md5: string -> string, id: string, pageID: string, d: AuditV2,
                            cache: StatusCache, w: World, now: string)
    requires CheckPageOutcome(md5, id, pageID, d, cache, w, now).Some?
    ensures var o := CheckPageOutcome(md5, id, pageID, d, cache, w, now).value;
      var o2 := CheckPageOutcome(md5, id, pageID, o.data, o.cache, w, now);
      o2 == Some(o)
  {
    var o := CheckPageOutcome(md5, id, pageID, d, cache, w, now).value;
    var ps := d.pages.value;
    var page := Get(ps, pageID).value;
    var full := o.fetched;
    var r := w.get(full);
    var doc := w.parseHtml(r.content);
    var base := d.url.value;
    var c := CheckPageEntry(md5, id, base, o.cache, page, r, doc, now);
    GetPut(ps, pageID, c.page);
    assert Get(o.data.pages.value, pageID) == Some(c.page);
    assert PageURL(o.data, pageID) == Some(full);
    var key := UrlStatusKey(md5, id, full);
    assert o.cache[key := CachedStatus(r.status, now)] == o.cache;
    var c2 := CheckPageEntry(md5, id, base, o.cache, c.page, r, doc, now);
    assert c2 == c;
    PutPut(ps, pageID, c.page, c.page);
  }
}
