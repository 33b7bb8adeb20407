/** The audit record in its two persisted formats, the upgrade `getData`
    applies on read, and the keys under which records and URL statuses are
    stored (classes/Audits/Internal/Utilities.php). */
module Records {
  import opened PhpArray

  // ---------------------------------------------------------------------------
  // Format v1: the long keys. `Audits::request` writes them and the facade's
  // `getStatus` and `getResults` read them.
  // ---------------------------------------------------------------------------

  /** A link under `links`: keys `status`, `url`, `dateChecked`. */
  datatype LinkV1 = LinkV1(status: Option<int>, url: Option<string>, dateChecked: Option<string>)

  /** A page under `pages`: keys `status`, `links`, `url`, `dateChecked`,
      `title`, `description`, `keywords`, `content`. */
  datatype PageV1 = PageV1(
    status: Option<int>,
    links: Option<OrdMap<LinkV1>>,
    url: Option<string>,
    dateChecked: Option<string>,
    title: Option<string>,
    description: Option<string>,
    keywords: Option<string>,
    content: Option<string>)

  /** Keys `id`, `url`, `dateRequested`, `errors`, `pages`, `maxPagesCount`,
      `allowSearchEngines`. */
  datatype AuditV1 = AuditV1(
    id: Option<string>,
    url: Option<string>,
    dateRequested: Option<string>,
    errors: Option<seq<string>>,
    pages: Option<OrdMap<PageV1>>,
    maxPagesCount: Option<int>,
    allowSearchEngines: Option<bool>)

  // ---------------------------------------------------------------------------
  // Format v2: the short keys the engine reads and writes. Each field names
  // the one-letter key it stands for.
  // ---------------------------------------------------------------------------

  /** `e` holds the list copied from a v1 `errors`, or the text the engine writes. */
  datatype ErrorsValue = ErrorList(messages: seq<string>) | ErrorText(text: string)

  /** A link under `l`. */
  datatype LinkV2 = LinkV2(
    url: Option<string>,     // u
    title: Option<string>,   // t
    status: Option<int>,     // s
    date: Option<string>)    // d

  /** A page under `p`. */
  datatype PageV2 = PageV2(
    url: Option<string>,          // u
    status: Option<int>,          // s
    date: Option<string>,         // d
    title: Option<string>,        // t
    description: Option<string>,  // e
    keywords: Option<string>,     // k
    ogImage: Option<string>,      // g
    content: Option<string>,      // c
    links: Option<OrdMap<LinkV2>>) // l

  datatype AuditV2 = AuditV2(
    id: Option<string>,                // i
    url: Option<string>,               // u, the base URL
    dateRequested: Option<string>,     // d
    errors: Option<ErrorsValue>,       // e
    pages: Option<OrdMap<PageV2>>,     // p
    maxPagesCount: Option<int>,        // m
    allowSearchEngines: Option<bool>,  // a
    siteVerification: Option<string>)  // g

  /** The PHP array holding one audit. The long and the short keys are
      disjoint, so an array is its long-key part together with its short-key
      part; a record in one format has the other part empty. */
  datatype AuditArray = AuditArray(v1: AuditV1, v2: AuditV2)

  const NoV1: AuditV1 := AuditV1(None, None, None, None, None, None, None)
  const NoV2: AuditV2 := AuditV2(None, None, None, None, None, None, None, None)

  function InV1(a: AuditV1): AuditArray { AuditArray(a, NoV2) }
  function InV2(a: AuditV2): AuditArray { AuditArray(NoV1, a) }

  // ---------------------------------------------------------------------------
  // The upgrade in getData: every long key that `isset` finds is copied to its
  // short key; null fields are dropped, i.e. stay absent.
  // ---------------------------------------------------------------------------

  function MigrateLink(l: LinkV1): LinkV2 {
    LinkV2(url := l.url, title := None, status := l.status, date := l.dateChecked)
  }

  function MigratePage(p: PageV1): PageV2 {
    PageV2(
      url := p.url, status := p.status, date := p.dateChecked, title := p.title,
      description := p.description, keywords := p.keywords, ogImage := None, content := p.content,
      links := if p.links.Some? then Some(MapValues(p.links.value, MigrateLink)) else None)
  }

  function MigrateAudit(a: AuditV1): AuditV2 {
    AuditV2(
      id := a.id, url := a.url, dateRequested := a.dateRequested,
      errors := if a.errors.Some? then Some(ErrorList(a.errors.value)) else None,
      pages := if a.pages.Some? then Some(MapValues(a.pages.value, MigratePage)) else None,
      maxPagesCount := a.maxPagesCount, allowSearchEngines := a.allowSearchEngines,
      siteVerification := None)
  }

  /** What `getData` makes of a decoded array: one holding `id` is rebuilt from
      its long keys alone; any other passes through. */
  function Upgrade(r: AuditArray): (u: AuditArray)
    ensures r.v1.id.Some? ==> u == InV2(MigrateAudit(r.v1))
    ensures r.v1.id.None? ==> u == r
  {
    if r.v1.id.Some? then InV2(MigrateAudit(r.v1)) else r
  }

  /** An upgraded array has no long keys left, so upgrading twice is upgrading once. */
  lemma UpgradeIdempotent(r: AuditArray)
    ensures Upgrade(r).v1.id.None?
    ensures Upgrade(Upgrade(r)) == Upgrade(r)
  {
  }

  /** The upgrade keeps every page id in order and every link id of every page. */
  lemma MigrationKeepsIds(a: AuditV1)
    ensures MigrateAudit(a).pages.Some? <==> a.pages.Some?
    ensures a.pages.Some? ==> Keys(MigrateAudit(a).pages.value) == Keys(a.pages.value)
    ensures a.pages.Some? ==> forall i :: 0 <= i < |a.pages.value| ==>
      (MigrateAudit(a).pages.value[i].1.links.Some? <==> a.pages.value[i].1.links.Some?) &&
      (a.pages.value[i].1.links.Some? ==>
        Keys(MigrateAudit(a).pages.value[i].1.links.value) == Keys(a.pages.value[i].1.links.value))
  {
    if a.pages.Some? {
      var ps := a.pages.value;
      forall i | 0 <= i < |ps|
        ensures MigrateAudit(a).pages.value[i].1 == MigratePage(ps[i].1)
      {
      }
    }
  }

  // The long-key form of a short-key record: the inverse of the upgrade.

  function RestoreLink(l: LinkV2): LinkV1 {
    LinkV1(status := l.status, url := l.url, dateChecked := l.date)
  }

  function RestorePage(p: PageV2): PageV1 {
    PageV1(
      status := p.status,
      links := if p.links.Some? then Some(MapValues(p.links.value, RestoreLink)) else None,
      url := p.url, dateChecked := p.date, title := p.title, description := p.description,
      keywords := p.keywords, content := p.content)
  }

  function RestoreAudit(a: AuditV2): AuditV1 {
    AuditV1(
      id := a.id, url := a.url, dateRequested := a.dateRequested,
      errors := match a.errors {
        case None => None
        case Some(ErrorList(m)) => Some(m)
        case Some(ErrorText(t)) => Some([t])
      },
      pages := if a.pages.Some? then Some(MapValues(a.pages.value, RestorePage)) else None,
      maxPagesCount := a.maxPagesCount, allowSearchEngines := a.allowSearchEngines)
  }

  lemma RestoreMigratedLinks(links: OrdMap<LinkV1>)
    ensures MapValues(MapValues(links, MigrateLink), RestoreLink) == links
  {
    var r := MapValues(MapValues(links, MigrateLink), RestoreLink);
    assert |r| == |links|;
    forall i | 0 <= i < |links| ensures r[i] == links[i] {
      assert RestoreLink(MigrateLink(links[i].1)) == links[i].1;
    }
  }

  lemma RestoreMigratedPage(p: PageV1)
    ensures RestorePage(MigratePage(p)) == p
  {
    if p.links.Some? {
      RestoreMigratedLinks(p.links.value);
    }
  }

  /** The upgrade loses nothing: every v1 field, page and link can be read back
      from the v2 record it becomes. */
  lemma MigrationLossless(a: AuditV1)
    ensures RestoreAudit(MigrateAudit(a)) == a
  {
    if a.pages.Some? {
      var ps := a.pages.value;
      var r := MapValues(MapValues(ps, MigratePage), RestorePage);
      assert |r| == |ps|;
      forall i | 0 <= i < |ps| ensures r[i] == ps[i] {
        RestoreMigratedPage(ps[i].1);
      }
      assert r == ps;
    }
  }

  // The upgrade's loops (Utilities.php, getData), proved against the functions above.

  method MigrateLinksLoop(links: OrdMap<LinkV1>) returns (r: OrdMap<LinkV2>)
    ensures r == MapValues(links, MigrateLink)
  {
    r := [];
    for i := 0 to |links|
      invariant |r| == i
      invariant forall k :: 0 <= k < i ==> r[k] == (links[k].0, MigrateLink(links[k].1))
    {
      r := r + [(links[i].0, MigrateLink(links[i].1))];
    }
  }

  method MigratePagesLoop(pages: OrdMap<PageV1>) returns (r: OrdMap<PageV2>)
    ensures r == MapValues(pages, MigratePage)
  {
    r := [];
    for i := 0 to |pages|
      invariant |r| == i
      invariant forall k :: 0 <= k < i ==> r[k] == (pages[k].0, MigratePage(pages[k].1))
    {
      var page := pages[i].1;
      var newLinks: Option<OrdMap<LinkV2>> := None;
      if page.links.Some? {
        var l := MigrateLinksLoop(page.links.value);
        newLinks := Some(l);
      }
      var newPage := PageV2(
        url := page.url, status := page.status, date := page.dateChecked, title := page.title,
        description := page.description, keywords := page.keywords, ogImage := None,
        content := page.content, links := newLinks);
      r := r + [(pages[i].0, newPage)];
    }
  }

  /** `getData`'s conversion of a decoded array to format v2. */
  method UpgradeLoop(r: AuditArray) returns (u: AuditArray)
    ensures u == Upgrade(r)
  {
    if r.v1.id.None? {
      return r;
    }
    var a := r.v1;
    var pages: Option<OrdMap<PageV2>> := None;
    if a.pages.Some? {
      var ps := MigratePagesLoop(a.pages.value);
      pages := Some(ps);
    }
    var errors: Option<ErrorsValue> := if a.errors.Some? then Some(ErrorList(a.errors.value)) else None;
    u := InV2(AuditV2(
      id := a.id, url := a.url, dateRequested := a.dateRequested, errors := errors,
      pages := pages, maxPagesCount := a.maxPagesCount,
      allowSearchEngines := a.allowSearchEngines, siteVerification := None));
  }

  // ---------------------------------------------------------------------------
  // Storage keys. `md5` stands for PHP's md5; nothing is assumed of it except,
  // where a lemma says so, that it is injective or never yields a `-`.
  // ---------------------------------------------------------------------------

  ghost predicate Injective(md5: string -> string) {
    forall a, b :: md5(a) == md5(b) ==> a == b
  }

  lemma InjectiveAt(md5: string -> string, a: string, b: string)
    requires Injective(md5) && md5(a) == md5(b)
    ensures a == b
  {
  }

  ghost predicate DashFree(md5: string -> string) {
    forall a :: '-' !in md5(a)
  }

  /** A status-cache entry, `[status, date]` in the framework cache. */
  datatype CachedStatus = CachedStatus(status: int, date: string)

  type StatusCache = map<string, CachedStatus>

  /** `getURLStatusFromCache($id, $url)`: the entry, or `None` for `[null, null]`. */
  function CachedStatusOf(cache: StatusCache, md5: string -> string, id: string, url: string): Option<CachedStatus> {
    var key := UrlStatusKey(md5, id, url);
    if key in cache then Some(cache[key]) else None
  }

  const DataKeyPrefix: string := "bearcms-audits/"
  const DataKeySuffix: string := ".json"
  const StatusKeyPrefix: string := "bearcms-audits-"

  /** `getDataKey($id)` */
  function DataKey(md5: string -> string, id: string): string {
    DataKeyPrefix + md5(id) + DataKeySuffix
  }

  /** `getURLStatusCacheKey($id, $url)` */
  function UrlStatusKey(md5: string -> string, id: string, url: string): string {
    StatusKeyPrefix + md5(id) + "-" + md5(url)
  }

  /** Two audits never share a record key. */
  lemma DataKeyInjective(md5: string -> string, a: string, b: string)
    requires Injective(md5)
    requires DataKey(md5, a) == DataKey(md5, b)
    ensures a == b
  {
    var p := DataKeyPrefix;
    var ka, kb := DataKey(md5, a), DataKey(md5, b);
    assert |md5(a)| == |md5(b)|;
    assert md5(a) == ka[|p|..|ka| - 5] == kb[|p|..|kb| - 5] == md5(b);
  }

  /** In `a + "-" + b` with no dash in `a`, the first dash sits right after `a`. */
  lemma FirstDash(a: string, b: string)
    requires '-' !in a
    ensures (a + "-" + b)[|a|] == '-'
    ensures forall i :: 0 <= i < |a| ==> (a + "-" + b)[i] != '-'
  {
    forall i | 0 <= i < |a| ensures (a + "-" + b)[i] != '-' {
      assert (a + "-" + b)[i] == a[i];
    }
  }

  /** A dash-joined pair splits back uniquely when its left part has no dash. */
  lemma SplitAtDash(a: string, b: string, c: string, d: string)
    requires '-' !in a && '-' !in c
    requires a + "-" + b == c + "-" + d
    ensures a == c && b == d
  {
    var x := a + "-" + b;
    FirstDash(a, b);
    FirstDash(c, d);
    assert |a| == |c|;
    assert a == x[..|a|] == c;
    assert b == x[|a| + 1..] == d;
  }

  /** Two (audit, URL) pairs never share a status-cache key. */
  lemma UrlStatusKeyInjective(md5: string -> string, id1: string, url1: string, id2: string, url2: string)
    requires Injective(md5) && DashFree(md5)
    requires UrlStatusKey(md5, id1, url1) == UrlStatusKey(md5, id2, url2)
    ensures id1 == id2 && url1 == url2
  {
    var p := StatusKeyPrefix;
    var k := UrlStatusKey(md5, id1, url1);
    var rest := k[|p|..];
    assert rest == md5(id1) + "-" + md5(url1);
    assert rest == md5(id2) + "-" + md5(url2);
    assert '-' !in md5(id1) && '-' !in md5(id2);
    SplitAtDash(md5(id1), md5(url1), md5(id2), md5(url2));
  }
}
