/** The discovery stage of `initializeAudit` (classes/Audits/Internal/Utilities.php):
    robots.txt is scanned for a blanket `disallow:/` and for `sitemap:` lines,
    the sitemap's `<url><loc>` entries are collected, and the distinct URLs
    become the audit's pages, each with a check-page task unless the page cap
    is reached. */
module Discovery {
  import opened PhpArray
  import opened PhpString
  import opened Urls
  import opened Records
  import opened Platform

  // ---------------------------------------------------------------------------
  // robots.txt
  // ---------------------------------------------------------------------------

  /** `strtolower(trim($robotsLine))` */
  function NormalizeLine(raw: string): string {
    ToLower(Trim(raw))
  }

  const RobotsFile: string := "robots.txt"
  const SitemapFile: string := "sitemap.xml"
  const DisallowAll: string := "disallow:/"
  const SitemapField: string := "sitemap:"

  /** The line is a blanket `Disallow: /`, spaces anywhere ignored. */
  predicate IsDisallow(raw: string) {
    RemoveSpaces(NormalizeLine(raw)) == DisallowAll
  }

  /** The line names a sitemap (and is not a blanket disallow, which is tested first). */
  predicate IsSitemapLine(raw: string) {
    !IsDisallow(raw) && StartsWith(NormalizeLine(raw), SitemapField)
  }

  /** `trim(substr($robotsLine, 8))`: what follows `sitemap:` on a sitemap line. */
  function SitemapValue(raw: string): string
    requires IsSitemapLine(raw)
  {
    Trim(NormalizeLine(raw)[|SitemapField|..])
  }

  /** What the scan has found so far: `$data['a']` and `$sitemapURL`. */
  datatype RobotsScan = RobotsScan(allow: bool, sitemap: string)

  const RobotsStart: RobotsScan := RobotsScan(true, "")

  /** One pass of the loop body over a line. */
  function ScanLine(st: RobotsScan, raw: string): (r: RobotsScan)
    ensures r.allow == (st.allow && !IsDisallow(raw))
    ensures r.sitemap == if IsSitemapLine(raw) then SitemapValue(raw) else st.sitemap
  {
    var line := NormalizeLine(raw);
    if |line| == 0 then st
    else if RemoveSpaces(line) == DisallowAll then st.(allow := false)
    else if StartsWith(line, SitemapField) then st.(sitemap := Trim(line[|SitemapField|..]))
    else st
  }

  /** The scan of all lines, in order. */
  function ScanRobots(lines: seq<string>): RobotsScan {
    if |lines| == 0 then RobotsStart else ScanLine(ScanRobots(lines[..|lines| - 1]), lines[|lines| - 1])
  }

  /** Search engines are reported as disallowed exactly when some line is a
      blanket disallow. */
  lemma AllowUnlessDisallowed(lines: seq<string>)
    ensures !ScanRobots(lines).allow <==> exists i :: 0 <= i < |lines| && IsDisallow(lines[i])
  {
    AllowIsFold(lines);
    NoneFoldExists(lines, IsDisallow);
  }

  /** `true` until a line satisfies `p`. */
  function NoneFold<T>(xs: seq<T>, p: T -> bool): bool {
    if |xs| == 0 then true else NoneFold(xs[..|xs| - 1], p) && !p(xs[|xs| - 1])
  }

  lemma {:induction false} NoneFoldExists<T>(xs: seq<T>, p: T -> bool)
    ensures !NoneFold(xs, p) <==> exists i :: 0 <= i < |xs| && p(xs[i])
  {
    if |xs| > 0 {
      var n := |xs| - 1;
      var init := xs[..n];
      NoneFoldExists(init, p);
      if exists i :: 0 <= i < |xs| && p(xs[i]) {
        var i :| 0 <= i < |xs| && p(xs[i]);
        if i < n {
          assert init[i] == xs[i];
        }
      }
      if exists i :: 0 <= i < n && p(init[i]) {
        var i :| 0 <= i < n && p(init[i]);
        assert xs[i] == init[i];
      }
    }
  }

  lemma {:induction false} AllowIsFold(lines: seq<string>)
    ensures ScanRobots(lines).allow == NoneFold(lines, IsDisallow)
  {
    if |lines| > 0 {
      AllowIsFold(lines[..|lines| - 1]);
    }
  }

  /** The sitemap found is the value of the last sitemap line ... */
  lemma {:induction false} LastSitemapWins(lines: seq<string>, j: nat)
    requires j < |lines| && IsSitemapLine(lines[j])
    requires forall k :: j < k < |lines| ==> !IsSitemapLine(lines[k])
    ensures ScanRobots(lines).sitemap == SitemapValue(lines[j])
  {
    if j < |lines| - 1 {
      var init := lines[..|lines| - 1];
      assert init[j] == lines[j];
      forall k | j < k < |init| ensures !IsSitemapLine(init[k]) {
        assert init[k] == lines[k];
      }
      LastSitemapWins(init, j);
    }
  }

  /** ... and there is none when no line names one. */
  lemma {:induction false} NoSitemapLine(lines: seq<string>)
    requires forall k :: 0 <= k < |lines| ==> !IsSitemapLine(lines[k])
    ensures ScanRobots(lines).sitemap == ""
  {
    if |lines| > 0 {
      var init := lines[..|lines| - 1];
      forall k | 0 <= k < |init| ensures !IsSitemapLine(init[k]) {
        assert init[k] == lines[k];
      }
      NoSitemapLine(init);
    }
  }

  /** The loop at Utilities.php lines 73-83. */
  method ScanRobotsLoop(lines: seq<string>) returns (allow: bool, sitemap: string)
    ensures RobotsScan(allow, sitemap) == ScanRobots(lines)
  {
    allow, sitemap := true, "";
    for i := 0 to |lines|
      invariant RobotsScan(allow, sitemap) == ScanRobots(lines[..i])
    {
      assert lines[..i + 1][..i] == lines[..i];
      allow, sitemap := ScanLineStep(allow, sitemap, lines[i]);
    }
    assert lines[..|lines|] == lines;
  }

  /** The body of that loop; an empty line is skipped (`continue`). */
  method ScanLineStep(allow0: bool, sitemap0: string, robotsLine: string) returns (allow: bool, sitemap: string)
    ensures RobotsScan(allow, sitemap) == ScanLine(RobotsScan(allow0, sitemap0), robotsLine)
  {
    allow, sitemap := allow0, sitemap0;
    var line := ToLower(Trim(robotsLine));
    if |line| == 0 {
      return;
    }
    if RemoveSpaces(line) == DisallowAll {
      allow := false;
    } else if StartsWith(line, SitemapField) {
      sitemap := Trim(line[|SitemapField|..]);
    }
  }

  /** The sitemap to read: the one robots.txt names, else `sitemap.xml` under the base URL. */
  function SitemapURL(base: string, scan: RobotsScan): string {
    if |scan.sitemap| > 0 then scan.sitemap else base + SitemapFile
  }

  // ---------------------------------------------------------------------------
  // Error messages stored under `e`.
  // ---------------------------------------------------------------------------

  const ProblemPrefix: string := "There is a problem with "
  const StatusOpen: string := " (status:"
  const StatusClose: string := ")"
  const SitemapErrorPrefix: string := "Error finding URLs in "

  function ProblemMessage(url: string, status: int): string {
    ProblemPrefix + url + StatusOpen + IntToDecimal(status) + StatusClose
  }

  function SitemapErrorMessage(url: string): string {
    SitemapErrorPrefix + url
  }

  /** The message for a failed request names the URL and records the status:
      two messages about one URL are equal only when the statuses are. */
  lemma ProblemMessageKeepsStatus(url: string, s1: int, s2: int)
    requires ProblemMessage(url, s1) == ProblemMessage(url, s2)
    ensures s1 == s2
  {
    var m1, m2 := ProblemMessage(url, s1), ProblemMessage(url, s2);
    var n := |ProblemPrefix + url + StatusOpen|;
    assert m1[n..|m1| - 1] == IntToDecimal(s1);
    assert m2[n..|m2| - 1] == IntToDecimal(s2);
    IntToDecimalInjective(s1, s2);
  }

  // ---------------------------------------------------------------------------
  // The sitemap.
  // ---------------------------------------------------------------------------

  /** The URLs of the `<url>` elements that hold exactly one `<loc>`, in order. */
  function CollectLocs(elements: seq<UrlElement>): seq<string> {
    if |elements| == 0 then []
    else
      var e := elements[|elements| - 1];
      CollectLocs(elements[..|elements| - 1]) + (if |e.locs| == 1 then [e.locs[0]] else [])
  }

  /** A URL is collected exactly when some element has it as its only `<loc>`. */
  lemma {:induction false} CollectLocsMembers(elements: seq<UrlElement>, u: string)
    ensures u in CollectLocs(elements) <==>
      exists i :: 0 <= i < |elements| && elements[i].locs == [u]
  {
    if |elements| > 0 {
      var init := elements[..|elements| - 1];
      CollectLocsMembers(init, u);
      assert elements == init + [elements[|elements| - 1]];
      ExistsSnoc(init, elements[|elements| - 1], (e: UrlElement) => e.locs == [u]);
    }
  }

  /** The loop at Utilities.php lines 49-54. */
  method CollectLocsLoop(elements: seq<UrlElement>) returns (urls: seq<string>)
    ensures urls == CollectLocs(elements)
  {
    urls := [];
    for i := 0 to |elements|
      invariant urls == CollectLocs(elements[..i])
    {
      assert elements[..i + 1][..i] == elements[..i];
      if |elements[i].locs| == 1 {
        urls := urls + [elements[i].locs[0]];
      }
    }
    assert elements[..|elements|] == elements;
  }

  /** `$processSitemapURL`: the URLs found and, on failure, the error text. */
  datatype SitemapOutcome = SitemapOutcome(urls: seq<string>, error: Option<string>)

  function ProcessSitemap(w: World, sitemapURL: string): SitemapOutcome {
    var r := w.get(sitemapURL);
    if r.status == 200 then
      match w.parseXml(r.content)
      case Urls(elements) => SitemapOutcome(CollectLocs(elements), None)
      case Malformed => SitemapOutcome([], Some(SitemapErrorMessage(sitemapURL)))
    else SitemapOutcome([], Some(ProblemMessage(sitemapURL, r.status)))
  }

  /** What robots.txt and the sitemap yield: the new `a` (when robots.txt was
      read), the URLs, the new `e` (when something failed) and the URLs
      requested, in order. */
  datatype Discovered = Discovered(
    allow: Option<bool>, urls: seq<string>, error: Option<string>, requested: seq<string>)

  /** Utilities.php lines 67-91 for a base URL. */
  function Discover(base: string, w: World): Discovered {
    var robotsURL := base + RobotsFile;
    var r := w.get(robotsURL);
    if r.status == 200 then
      var scan := ScanRobots(Explode(r.content));
      var sitemapURL := SitemapURL(base, scan);
      var s := ProcessSitemap(w, sitemapURL);
      Discovered(Some(scan.allow), s.urls, s.error, [robotsURL, sitemapURL])
    else
      Discovered(None, [], Some(ProblemMessage(robotsURL, r.status)), [robotsURL])
  }

  /** A sitemap that answers 200 with an empty body: `loadXML('')` throws a
      `ValueError`, which `catch (\Exception $e)` does not catch, so the
      task ends there. */
  predicate SitemapAborts(base: string, w: World) {
    var disc := Discover(base, w);
    |disc.requested| == 2 && EmptySitemap(w, disc.requested[1])
  }

  predicate EmptySitemap(w: World, sitemapURL: string) {
    w.get(sitemapURL).status == 200 && w.get(sitemapURL).content == ""
  }

  /** A robots.txt that cannot be read is reported with its URL and status,
      no sitemap is requested and no URL is found. */
  lemma RobotsFailure(base: string, w: World)
    requires w.get(base + RobotsFile).status != 200
    ensures Discover(base, w) == Discovered(
      None, [], Some(ProblemMessage(base + RobotsFile, w.get(base + RobotsFile).status)),
      [base + RobotsFile])
  {
  }

  /** Line `j` is the last `sitemap:` line. */
  predicate LastSitemapLine(lines: seq<string>, j: int) {
    0 <= j < |lines| && IsSitemapLine(lines[j]) && forall k :: j < k < |lines| ==> !IsSitemapLine(lines[k])
  }

  /** The sitemap a `sitemap:` line selects: its remainder, or the default
      when the remainder is empty. */
  function NamedSitemap(base: string, line: string): string
    requires IsSitemapLine(line)
  {
    if |SitemapValue(line)| > 0 then SitemapValue(line) else base + SitemapFile
  }

  lemma SitemapOfLastLine(base: string, lines: seq<string>, j: int)
    requires LastSitemapLine(lines, j)
    ensures SitemapURL(base, ScanRobots(lines)) == NamedSitemap(base, lines[j])
  {
    LastSitemapWins(lines, j);
  }

  /** After a readable robots.txt exactly one sitemap is requested: the one
      the last sitemap line names, or the default when there is no sitemap
      line or the last one names nothing. The URLs found are those of that
      sitemap, or none when it fails. */
  lemma RobotsSuccess(base: string, w: World)
    requires w.get(base + RobotsFile).status == 200
    ensures var lines := Explode(w.get(base + RobotsFile).content);
      var d := Discover(base, w);
      && d.allow == Some(forall i :: 0 <= i < |lines| ==> !IsDisallow(lines[i]))
      && |d.requested| == 2
      && ((forall k :: 0 <= k < |lines| ==> !IsSitemapLine(lines[k])) ==>
            d.requested[1] == base + SitemapFile)
      && (forall j :: LastSitemapLine(lines, j) ==> d.requested[1] == NamedSitemap(base, lines[j]))
      && (d.error.None? <==> w.get(d.requested[1]).status == 200 && w.parseXml(w.get(d.requested[1]).content).Urls?)
      && d.urls == (var x := w.parseXml(w.get(d.requested[1]).content);
                    if w.get(d.requested[1]).status == 200 && x.Urls? then CollectLocs(x.elements) else [])
  {
    var lines := Explode(w.get(base + RobotsFile).content);
    var scan := ScanRobots(lines);
    var sitemapURL := SitemapURL(base, scan);
    var s := ProcessSitemap(w, sitemapURL);
    assert Discover(base, w) == Discovered(Some(scan.allow), s.urls, s.error, [base + RobotsFile, sitemapURL]);
    AllowUnlessDisallowed(lines);
    if forall k :: 0 <= k < |lines| ==> !IsSitemapLine(lines[k]) {
      NoSitemapLine(lines);
    }
    forall j | LastSitemapLine(lines, j) ensures sitemapURL == NamedSitemap(base, lines[j]) {
      SitemapOfLastLine(base, lines, j);
    }
  }

  // ---------------------------------------------------------------------------
  // Deduplication: array_unique keeps the first occurrence of each value.
  // ---------------------------------------------------------------------------

  predicate Distinct(s: seq<string>) {
    forall i, j :: 0 <= i < j < |s| ==> s[i] != s[j]
  }

  function Unique(s: seq<string>): (r: seq<string>)
    ensures Distinct(r)
    ensures forall x :: x in r <==> x in s
  {
    if |s| == 0 then []
    else
      var u := Unique(s[..|s| - 1]);
      assert forall x :: x in s <==> x in s[..|s| - 1] || x == s[|s| - 1];
      if s[|s| - 1] in u then u else u + [s[|s| - 1]]
  }

  /** Deduplicating keeps the order of first occurrences: it is the identity
      on a list without repetitions. */
  lemma {:induction false} UniqueOfDistinct(s: seq<string>)
    requires Distinct(s)
    ensures Unique(s) == s
  {
    if |s| > 0 {
      var init := s[..|s| - 1];
      UniqueOfDistinct(init);
      assert s[|s| - 1] !in init;
      assert init + [s[|s| - 1]] == s;
    }
  }

  method UniqueLoop(s: seq<string>) returns (r: seq<string>)
    ensures r == Unique(s)
  {
    r := [];
    for i := 0 to |s|
      invariant r == Unique(s[..i])
    {
      assert s[..i + 1][..i] == s[..i];
      if s[i] !in r {
        r := r + [s[i]];
      }
    }
    assert s[..|s|] == s;
  }

  // ---------------------------------------------------------------------------
  // Page insertion (Utilities.php lines 106-134).
  // ---------------------------------------------------------------------------

  /** A freshly inserted page: only its short URL. */
  function NewPage(base: string, url: string): PageV2 {
    PageV2(Some(ShortURL(base, url)), None, None, None, None, None, None, None, None)
  }

  /** The pages built so far and the check-page tasks to queue. */
  datatype Insertion = Insertion(pages: OrdMap<PageV2>, tasks: seq<Task>)

  /** One pass of the loop body: the page is written, and when the cap is
      exceeded by it, it is marked `s = -1` instead of getting a task. */
  function InsertPage(st: Insertion, md5: string -> string, id: string, base: string,
                      maxPages: Option<int>, time: int, url: string): Insertion
  {
    var pageID := md5(url);
    var pages := Put(st.pages, pageID, NewPage(base, url));
    if maxPages.Some? && |pages| > maxPages.value then
      Insertion(Put(pages, pageID, NewPage(base, url).(status := Some(-1))), st.tasks)
    else
      Insertion(pages, st.tasks + [CheckPageTask(id, pageID, time)])
  }

  function InsertPages(md5: string -> string, id: string, base: string, maxPages: Option<int>,
                       time: int, urls: seq<string>): Insertion
  {
    if |urls| == 0 then Insertion([], [])
    else InsertPage(InsertPages(md5, id, base, maxPages, time, urls[..|urls| - 1]),
                    md5, id, base, maxPages, time, urls[|urls| - 1])
  }

  /** How many of `n` pages get a task under the cap. */
  function TaskCount(maxPages: Option<int>, n: nat): nat {
    if maxPages.None? || maxPages.value >= n then n
    else if maxPages.value < 0 then 0
    else maxPages.value
  }

  /** The URLs hash to different page ids. */
  predicate DistinctIds(md5: string -> string, urls: seq<string>) {
    forall i, j :: 0 <= i < j < |urls| ==> md5(urls[i]) != md5(urls[j])
  }

  /** Pages are keyed by distinct ids whatever the hash does. */
  lemma {:induction false} InsertPagesDistinctKeys(md5: string -> string, id: string, base: string,
                                                    maxPages: Option<int>, time: int, urls: seq<string>)
    ensures DistinctKeys(InsertPages(md5, id, base, maxPages, time, urls).pages)
  {
    if |urls| > 0 {
      var init := urls[..|urls| - 1];
      InsertPagesDistinctKeys(md5, id, base, maxPages, time, init);
      var st := InsertPages(md5, id, base, maxPages, time, init);
      var url := urls[|urls| - 1];
      var p := NewPage(base, url);
      PutDistinct(st.pages, md5(url), p);
      PutDistinct(Put(st.pages, md5(url), p), md5(url), p.(status := Some(-1)));
    }
  }

  /** The page the `i`-th URL becomes when `count` pages get a task. */
  function PlacedPage(md5: string -> string, base: string, urls: seq<string>, count: nat, i: nat): (string, PageV2)
    requires i < |urls|
  {
    (md5(urls[i]), if i < count then NewPage(base, urls[i]) else NewPage(base, urls[i]).(status := Some(-1)))
  }

  /** The check-page tasks of the first `count` URLs. */
  function FirstTasks(md5: string -> string, id: string, time: int, urls: seq<string>, count: nat): seq<Task>
    requires count <= |urls|
  {
    seq(count, k requires 0 <= k < count => CheckPageTask(id, md5(urls[k]), time))
  }

  lemma TaskCountBound(maxPages: Option<int>, n: nat)
    ensures TaskCount(maxPages, n) <= n
    ensures TaskCount(maxPages, n + 1) == if maxPages.Some? && n + 1 > maxPages.value then TaskCount(maxPages, n) else n + 1
  {
  }

  /** The loop body on a fresh id, when the first `n` URLs are in place. */
  lemma InsertPageStep(st: Insertion, md5: string -> string, id: string, base: string,
                       maxPages: Option<int>, time: int, urls: seq<string>)
    requires |urls| > 0
    requires var n := |urls| - 1;
      && |st.pages| == n
      && (forall i :: 0 <= i < n ==> st.pages[i] == PlacedPage(md5, base, urls, TaskCount(maxPages, n), i))
      && st.tasks == FirstTasks(md5, id, time, urls, TaskCount(maxPages, n))
    requires forall i :: 0 <= i < |urls| - 1 ==> md5(urls[i]) != md5(urls[|urls| - 1])
    ensures var r := InsertPage(st, md5, id, base, maxPages, time, urls[|urls| - 1]);
      && |r.pages| == |urls|
      && (forall i :: 0 <= i < |urls| ==> r.pages[i] == PlacedPage(md5, base, urls, TaskCount(maxPages, |urls|), i))
      && r.tasks == FirstTasks(md5, id, time, urls, TaskCount(maxPages, |urls|))
  {
    var n := |urls| - 1;
    var url := urls[n];
    TaskCountBound(maxPages, n);
    var tc, tc' := TaskCount(maxPages, n), TaskCount(maxPages, n + 1);
    assert !HasKey(st.pages, md5(url)) by {
      forall i | 0 <= i < n ensures st.pages[i].0 != md5(url) {
        assert st.pages[i].0 == md5(urls[i]);
      }
    }
    var pages := Put(st.pages, md5(url), NewPage(base, url));
    assert pages == st.pages + [(md5(url), NewPage(base, url))];
    var r := InsertPage(st, md5, id, base, maxPages, time, url);
    if maxPages.Some? && |pages| > maxPages.value {
      assert tc' == tc;
      assert HasKey(pages, md5(url)) by { assert pages[n].0 == md5(url); }
      assert IndexOf(pages, md5(url)) == n;
      assert r.pages == st.pages + [PlacedPage(md5, base, urls, tc', n)];
    } else {
      assert tc' == n + 1 && tc == n;
      assert r.pages == st.pages + [PlacedPage(md5, base, urls, tc', n)];
    }
  }

  /** With distinct ids, each URL becomes one page, in order, keyed by its
      hash and holding its short URL; exactly the first `TaskCount` pages get
      a check-page task and every later one is marked `s = -1`. */
  lemma {:induction false} InsertPagesShape(md5: string -> string, id: string, base: string,
                                             maxPages: Option<int>, time: int, urls: seq<string>)
    requires DistinctIds(md5, urls)
    ensures TaskCount(maxPages, |urls|) <= |urls|
    ensures var ins := InsertPages(md5, id, base, maxPages, time, urls);
      && |ins.pages| == |urls|
      && (forall i :: 0 <= i < |urls| ==> ins.pages[i] == PlacedPage(md5, base, urls, TaskCount(maxPages, |urls|), i))
      && ins.tasks == FirstTasks(md5, id, time, urls, TaskCount(maxPages, |urls|))
  {
    TaskCountBound(maxPages, |urls|);
    if |urls| > 0 {
      var n := |urls| - 1;
      var init := urls[..n];
      assert DistinctIds(md5, init) by {
        forall i, j | 0 <= i < j < n ensures md5(init[i]) != md5(init[j]) {
          assert init[i] == urls[i] && init[j] == urls[j];
        }
      }
      InsertPagesShape(md5, id, base, maxPages, time, init);
      var st := InsertPages(md5, id, base, maxPages, time, init);
      var tc := TaskCount(maxPages, n);
      forall i | 0 <= i < n ensures st.pages[i] == PlacedPage(md5, base, urls, tc, i) {
        assert PlacedPage(md5, base, init, tc, i) == PlacedPage(md5, base, urls, tc, i);
      }
      assert FirstTasks(md5, id, time, init, tc) == FirstTasks(md5, id, time, urls, tc);
      InsertPageStep(st, md5, id, base, maxPages, time, urls);
    }
  }

  /** Every task queued is a check-page task of this audit with the given start time. */
  lemma {:induction false} InsertPagesTasks(md5: string -> string, id: string, base: string,
                                            maxPages: Option<int>, time: int, urls: seq<string>)
    ensures forall t :: t in InsertPages(md5, id, base, maxPages, time, urls).tasks ==>
      t.CheckPageTask? && t.auditId == id && t.startTime == time
  {
    if |urls| > 0 {
      InsertPagesTasks(md5, id, base, maxPages, time, urls[..|urls| - 1]);
    }
  }

  /** The loop at Utilities.php lines 111-130. */
  method InsertPagesLoop(md5: string -> string, id: string, base: string, maxPages: Option<int>,
                         time: int, urls: seq<string>) returns (pages: OrdMap<PageV2>, tasks: seq<Task>)
    ensures Insertion(pages, tasks) == InsertPages(md5, id, base, maxPages, time, urls)
  {
    pages, tasks := [], [];
    for i := 0 to |urls|
      invariant Insertion(pages, tasks) == InsertPages(md5, id, base, maxPages, time, urls[..i])
    {
      assert urls[..i + 1][..i] == urls[..i];
      var pageID := md5(urls[i]);
      pages := Put(pages, pageID, NewPage(base, urls[i]));
      var addTask := true;
      if maxPages.Some? {
        if |pages| > maxPages.value {
          pages := Put(pages, pageID, NewPage(base, urls[i]).(status := Some(-1)));
          addTask := false;
        }
      }
      if addTask {
        tasks := tasks + [CheckPageTask(id, pageID, time)];
      }
    }
    assert urls[..|urls|] == urls;
  }

  // ---------------------------------------------------------------------------
  // The whole of initializeAudit on the short-key record.
  // ---------------------------------------------------------------------------

  /** `google-site-verification` from the home page, when it is readable and has one. */
  function SiteVerification(w: World, home: string): Option<string> {
    var r := w.get(home);
    if r.status == 200 then
      var doc := w.parseHtml(r.content);
      if doc.head.Some? then doc.head.value.siteVerification else None
    else None
  }

  /** The text a possibly-null string concatenates as. */
  function TextOf(s: Option<string>): string {
    if s.Some? then s.value else ""
  }

  /** The record `initializeAudit` saves and the tasks it queues, or `None`
      when the task ends before anything is saved: a missing base URL makes
      the home-page request fail with a TypeError, and an empty sitemap body
      raises a ValueError. */
  datatype InitOutcome = InitOutcome(data: AuditV2, tasks: seq<Task>)

  function Initialized(md5: string -> string, id: string, d: AuditV2, w: World, time: int): Option<InitOutcome> {
    if d.url.None? || SitemapAborts(d.url.value, w) then None
    else
      var base := d.url.value;
      Some(Assembled(md5, id, d, base, Discover(base, w), SiteVerification(w, base), time))
  }

  /** The record and tasks, from what robots.txt, the sitemap and the home
      page yielded: `a`, `e` and `g` only change when something was found. */
  function Assembled(md5: string -> string, id: string, d: AuditV2, base: string,
                     disc: Discovered, g: Option<string>, time: int): InitOutcome
  {
    var ins := InsertPages(md5, id, base, d.maxPagesCount, time, Unique(disc.urls));
    InitOutcome(
      d.(allowSearchEngines := if disc.allow.Some? then disc.allow else d.allowSearchEngines,
         errors := if disc.error.Some? then Some(ErrorText(disc.error.value)) else d.errors,
         siteVerification := if g.Some? then g else d.siteVerification,
         pages := Some(ins.pages)),
      ins.tasks)
  }

  /** Discovery after a readable robots.txt, from the scan of its lines. */
  lemma DiscoverOfScan(base: string, w: World, scan: RobotsScan)
    requires w.get(base + RobotsFile).status == 200
    requires scan == ScanRobots(Explode(w.get(base + RobotsFile).content))
    ensures var p := ProcessSitemap(w, SitemapURL(base, scan));
      Discover(base, w) == Discovered(Some(scan.allow), p.urls, p.error, [base + RobotsFile, SitemapURL(base, scan)])
  {
  }

  /** `$processSitemapURL`, lines 42-63: the sitemap is requested and its
      `url` elements collected; `aborted` when an empty 200 body makes
      `loadXML` throw the `ValueError` that the `catch` lets through. */
  method ProcessSitemapSteps(w: World, sitemapURL: string) returns (s: SitemapOutcome, aborted: bool)
    ensures aborted == EmptySitemap(w, sitemapURL)
    ensures !aborted ==> s == ProcessSitemap(w, sitemapURL)
  {
    var result := w.get(sitemapURL);
    if result.status != 200 {
      return SitemapOutcome([], Some(ProblemMessage(sitemapURL, result.status))), false;
    }
    if result.content == "" {
      return SitemapOutcome([], None), true;
    }
    aborted := false;
    match w.parseXml(result.content) {
      case Urls(elements) =>
        var urls := CollectLocsLoop(elements);
        s := SitemapOutcome(urls, None);
      case Malformed =>
        s := SitemapOutcome([], Some(SitemapErrorMessage(sitemapURL)));
    }
  }

  /** Utilities.php lines 67-91, the requests made in order; `aborted` when
      the sitemap's empty body ends the task. */
  method DiscoverSteps(base: string, w: World) returns (disc: Discovered, aborted: bool)
    ensures disc.requested == Discover(base, w).requested
    ensures aborted == (|disc.requested| == 2 && EmptySitemap(w, disc.requested[1]))
    ensures !aborted ==> disc == Discover(base, w)
  {
    var robotsURL := base + RobotsFile;
    var result := w.get(robotsURL);
    if result.status != 200 {
      RobotsFailure(base, w);
      return Discovered(None, [], Some(ProblemMessage(robotsURL, result.status)), [robotsURL]), false;
    }
    var allow, sitemap := ScanRobotsLoop(Explode(result.content));
    var sitemapURL := if |sitemap| > 0 then sitemap else base + SitemapFile;
    DiscoverOfScan(base, w, RobotsScan(allow, sitemap));
    var s, sitemapAborted := ProcessSitemapSteps(w, sitemapURL);
    aborted := sitemapAborted;
    disc := Discovered(Some(allow), s.urls, s.error, [robotsURL, sitemapURL]);
  }

  /** Utilities.php lines 65-130: everything `initializeAudit` computes
      before it saves the record. */
  method InitializeSteps(md5: string -> string, id: string, d: AuditV2, w: World, time: int)
    returns (o: Option<InitOutcome>)
    ensures o == Initialized(md5, id, d, w, time)
  {
    if d.url.None? {
      return None;
    }
    var base := d.url.value;
    var disc, aborted := DiscoverSteps(base, w);
    if aborted {
      return None;
    }
    var allow := if disc.allow.Some? then disc.allow else d.allowSearchEngines;
    var errors := if disc.error.Some? then Some(ErrorText(disc.error.value)) else d.errors;
    var g := d.siteVerification;
    var home := w.get(base);
    if home.status == 200 {
      var doc := w.parseHtml(home.content);
      if doc.head.Some? && doc.head.value.siteVerification.Some? {
        g := doc.head.value.siteVerification;
      }
    }
    var unique := UniqueLoop(disc.urls);
    var pages, tasks := InsertPagesLoop(md5, id, base, d.maxPagesCount, time, unique);
    o := Some(InitOutcome(
      d.(allowSearchEngines := allow, errors := errors, siteVerification := g, pages := Some(pages)),
      tasks));
  }

  /** `initializeAudit` queues only check-page tasks of the audit, all with one start time. */
  lemma InitializedTasks(md5: string -> string, id: string, d: AuditV2, w: World, time: int)
    ensures var o := Initialized(md5, id, d, w, time);
      o.Some? ==> forall t :: t in o.value.tasks ==> t.CheckPageTask? && t.auditId == id && t.startTime == time
  {
    if d.url.Some? {
      InsertPagesTasks(md5, id, d.url.value, d.maxPagesCount, time, Unique(Discover(d.url.value, w).urls));
    }
  }

  /** Unless an empty sitemap body ends the task, every URL the sitemap lists
      once becomes exactly one page, keyed by its hash, and as many tasks are
      queued as the cap allows; the id, the base URL, the request date and
      the cap are kept. */
  lemma InitializedPages(md5: string -> string, id: string, d: AuditV2, w: World, time: int)
    requires d.url.Some? && Injective(md5)
    ensures var o := Initialized(md5, id, d, w, time);
      var urls := Unique(Discover(d.url.value, w).urls);
      && (o.Some? <==> !SitemapAborts(d.url.value, w))
      && (o.Some? ==>
            && o.value.data.id == d.id && o.value.data.url == d.url
            && o.value.data.dateRequested == d.dateRequested && o.value.data.maxPagesCount == d.maxPagesCount
            && o.value.data.pages.Some?
            && Keys(o.value.data.pages.value) == seq(|urls|, i requires 0 <= i < |urls| => md5(urls[i]))
            && |o.value.tasks| == TaskCount(d.maxPagesCount, |urls|))
  {
    var base := d.url.value;
    AssembledPages(md5, id, d, base, Discover(base, w), SiteVerification(w, base), time);
  }

  lemma AssembledPages(md5: string -> string, id: string, d: AuditV2, base: string,
                       disc: Discovered, g: Option<string>, time: int)
    requires Injective(md5)
    ensures var o := Assembled(md5, id, d, base, disc, g, time);
      var urls := Unique(disc.urls);
      && o.data.id == d.id && o.data.url == d.url
      && o.data.dateRequested == d.dateRequested && o.data.maxPagesCount == d.maxPagesCount
      && o.data.pages.Some?
      && Keys(o.data.pages.value) == seq(|urls|, i requires 0 <= i < |urls| => md5(urls[i]))
      && |o.tasks| == TaskCount(d.maxPagesCount, |urls|)
  {
    var urls := Unique(disc.urls);
    var ins := InsertPages(md5, id, base, d.maxPagesCount, time, urls);
    InsertPagesShape(md5, id, base, d.maxPagesCount, time, urls);
    assert Keys(ins.pages) == seq(|urls|, i requires 0 <= i < |urls| => md5(urls[i]));
  }
}
