/** `Audits::getStatus` (classes/Audits.php): the facade reads the long-key
    fields of the record and reports it missing, failed, running with a
    percentage, or done. Percentages are exact reals; PHP's `round` rounds
    half away from zero. */
module Progress {
  import opened PhpArray
  import opened Records

  datatype State = Errors(errors: seq<string>) | Running(percent: int) | Done

  /** The array `getStatus` returns: `NOTFOUND` carries only the id. */
  datatype StatusReport =
    | NotFound(id: string)
    | Found(id: string, dateRequested: Option<string>, state: State)

  /** `100 / 0` throws, as PHP 8 does for an empty `pages` array. */
  datatype StatusResult = Report(report: StatusReport) | DivisionByZeroError

  // ---------------------------------------------------------------------------
  // Reference definitions: what a page is worth and when it is done.
  // ---------------------------------------------------------------------------

  /** How many links have a status. */
  function StatusedLinks(links: OrdMap<LinkV1>): (n: nat)
    ensures n <= |links|
  {
    if |links| == 0 then 0
    else StatusedLinks(links[..|links| - 1]) + (if links[|links| - 1].1.status.Some? then 1 else 0)
  }

  predicate AllLinksSet(links: OrdMap<LinkV1>) {
    forall j :: 0 <= j < |links| ==> links[j].1.status.Some?
  }

  /** A page is done when it has a status and each of its links has one;
      a page without a `links` key only needs its status. */
  predicate PageDone(p: PageV1) {
    p.status.Some? && (p.links.None? || AllLinksSet(p.links.value))
  }

  /** The share of a page of weight `w`: half for having links and the other
      half split among the links with a status, the whole for an empty link
      list, and nothing without a `links` key. */
  function PageCredit(p: PageV1, w: real): real {
    if p.links.None? then 0.0
    else
      var k := |p.links.value|;
      if k == 0 then w
      else w / 2.0 + Times(StatusedLinks(p.links.value), (w / 2.0) / (k as real))
  }

  /** `n` times `x`, as the loop adds it up. */
  function Times(n: nat, x: real): real {
    if n == 0 then 0.0 else Times(n - 1, x) + x
  }

  lemma {:induction false} TimesIsProduct(n: nat, x: real)
    ensures Times(n, x) == (n as real) * x
  {
    if n > 0 {
      TimesIsProduct(n - 1, x);
    }
  }

  lemma {:induction false} TimesMonotone(m: nat, n: nat, x: real)
    requires m <= n && 0.0 <= x
    ensures 0.0 <= Times(m, x) <= Times(n, x)
  {
    if m < n {
      TimesMonotone(m, n - 1, x);
    } else if n > 0 {
      TimesMonotone(0, n - 1, x);
    }
  }

  function Credit(pages: OrdMap<PageV1>, w: real): real {
    if |pages| == 0 then 0.0 else Credit(pages[..|pages| - 1], w) + PageCredit(pages[|pages| - 1].1, w)
  }

  // ---------------------------------------------------------------------------
  // The loops of lines 104-127, as folds.
  // ---------------------------------------------------------------------------

  /** `$percent` and `$allPagesAreDone` (or `$allLinksAreDone`). */
  datatype Tally = Tally(percent: real, allDone: bool)

  /** The inner loop: `share` for each link with a status; a link without
      one clears the flag. */
  function TallyLinks(t: Tally, links: OrdMap<LinkV1>, share: real): Tally {
    if |links| == 0 then t
    else
      var s := TallyLinks(t, links[..|links| - 1], share);
      if links[|links| - 1].1.status.Some? then s.(percent := s.percent + share) else s.(allDone := false)
  }

  /** One pass of the outer loop with `$pagePercent` equal to `w`. */
  function TallyPage(t: Tally, p: PageV1, w: real): Tally {
    var linksDone := p.status.Some?;
    if p.links.Some? then
      var k := |p.links.value|;
      if k > 0 then
        var s := TallyLinks(Tally(t.percent + w / 2.0, linksDone), p.links.value, (w / 2.0) / (k as real));
        Tally(s.percent, t.allDone && s.allDone)
      else Tally(t.percent + w, t.allDone && linksDone)
    else Tally(t.percent, t.allDone && linksDone)
  }

  function TallyPages(pages: OrdMap<PageV1>, w: real): Tally {
    if |pages| == 0 then Tally(0.0, true) else TallyPage(TallyPages(pages[..|pages| - 1], w), pages[|pages| - 1].1, w)
  }

  /** PHP's `round`, half away from zero. */
  function Round(x: real): int {
    if x >= 0.0 then (x + 0.5).Floor else -((-x + 0.5).Floor)
  }

  /** `$percent > 99 ? 99 : round($percent)` */
  function Percent(x: real): int {
    if x > 99.0 then 99 else Round(x)
  }

  /** `!empty($data['errors'])` */
  predicate HasErrors(d: AuditV1) {
    d.errors.Some? && |d.errors.value| > 0
  }

  /** `getStatus($id)` given what `getData($id)` returned. */
  function StatusOf(id: string, found: Option<AuditArray>): StatusResult {
    if found.None? then Report(NotFound(id))
    else
      var d := found.value.v1;
      if HasErrors(d) then Report(Found(id, d.dateRequested, Errors(d.errors.value)))
      else if d.pages.None? then Report(Found(id, d.dateRequested, Running(0)))
      else if |d.pages.value| == 0 then DivisionByZeroError
      else
        var t := TallyPages(d.pages.value, 100.0 / (|d.pages.value| as real));
        Report(Found(id, d.dateRequested, if t.allDone then Done else Running(Percent(t.percent))))
  }

  // ---------------------------------------------------------------------------
  // The folds agree with the reference definitions.
  // ---------------------------------------------------------------------------

  lemma {:induction false} TallyLinksCounts(t: Tally, links: OrdMap<LinkV1>, share: real)
    ensures TallyLinks(t, links, share) ==
      Tally(t.percent + Times(StatusedLinks(links), share), t.allDone && AllLinksSet(links))
  {
    if |links| > 0 {
      var init := links[..|links| - 1];
      TallyLinksCounts(t, init, share);
      assert AllLinksSet(links) == (AllLinksSet(init) && links[|links| - 1].1.status.Some?) by {
        forall j | 0 <= j < |init| ensures init[j] == links[j] {
        }
      }
    }
  }

  lemma TallyPageCredit(t: Tally, p: PageV1, w: real)
    ensures TallyPage(t, p, w) == Tally(t.percent + PageCredit(p, w), t.allDone && PageDone(p))
  {
    if p.links.Some? && |p.links.value| > 0 {
      var k := |p.links.value|;
      TallyLinksCounts(Tally(t.percent + w / 2.0, p.status.Some?), p.links.value, (w / 2.0) / (k as real));
    }
  }

  /** `$percent` is the sum of the pages' credits, and `$allPagesAreDone`
      says that every page is done. */
  lemma {:induction false} TallyPagesIsCredit(pages: OrdMap<PageV1>, w: real)
    ensures TallyPages(pages, w) == Tally(Credit(pages, w), forall i :: 0 <= i < |pages| ==> PageDone(pages[i].1))
  {
    if |pages| > 0 {
      var init := pages[..|pages| - 1];
      TallyPagesIsCredit(init, w);
      TallyPageCredit(TallyPages(init, w), pages[|pages| - 1].1, w);
      assert (forall i :: 0 <= i < |pages| ==> PageDone(pages[i].1)) ==
        ((forall i :: 0 <= i < |init| ==> PageDone(init[i].1)) && PageDone(pages[|pages| - 1].1)) by {
        forall i | 0 <= i < |init| ensures init[i] == pages[i] {
        }
      }
    }
  }

  // ---------------------------------------------------------------------------
  // Properties of the report.
  // ---------------------------------------------------------------------------

  lemma PageCreditNonNegative(p: PageV1, w: real)
    requires w >= 0.0
    ensures 0.0 <= PageCredit(p, w) <= w
  {
    if p.links.Some? && |p.links.value| > 0 {
      var k := |p.links.value|;
      var h := (w / 2.0) / (k as real);
      TimesMonotone(StatusedLinks(p.links.value), k, h);
      TimesIsProduct(k, h);
    }
  }

  lemma {:induction false} CreditNonNegative(pages: OrdMap<PageV1>, w: real)
    requires w >= 0.0
    ensures 0.0 <= Credit(pages, w) <= Times(|pages|, w)
  {
    if |pages| > 0 {
      CreditNonNegative(pages[..|pages| - 1], w);
      PageCreditNonNegative(pages[|pages| - 1].1, w);
    }
  }

  /** The reported percentage of a running audit lies in 0..99. */
  lemma RunningPercentInRange(id: string, found: Option<AuditArray>)
    requires StatusOf(id, found).Report? && StatusOf(id, found).report.Found?
    requires StatusOf(id, found).report.state.Running?
    ensures 0 <= StatusOf(id, found).report.state.percent <= 99
  {
    var d := found.value.v1;
    if d.pages.Some? && !HasErrors(d) {
      var n := |d.pages.value| as real;
      var w := 100.0 / n;
      TallyPagesIsCredit(d.pages.value, w);
      CreditNonNegative(d.pages.value, w);
      TimesIsProduct(|d.pages.value|, w);
    }
  }

  /** Without errors and with at least one page, the audit is done exactly
      when every page has a status and every link of every page has one. */
  lemma DoneIffAllPagesDone(id: string, a: AuditArray)
    requires !HasErrors(a.v1)
    requires a.v1.pages.Some? && |a.v1.pages.value| > 0
    ensures var ps := a.v1.pages.value;
      StatusOf(id, Some(a)) == Report(Found(id, a.v1.dateRequested, Done)) <==>
        forall i :: 0 <= i < |ps| ==>
          ps[i].1.status.Some? &&
          (ps[i].1.links.Some? ==> forall j :: 0 <= j < |ps[i].1.links.value| ==> ps[i].1.links.value[j].1.status.Some?)
  {
    var ps := a.v1.pages.value;
    TallyPagesIsCredit(ps, 100.0 / (|ps| as real));
  }

  /** No record means `NOTFOUND`; a non-empty error list means `ERRORS`
      with the list; no pages yet means running at 0. */
  lemma StatusCases(id: string, found: Option<AuditArray>)
    ensures found.None? ==> StatusOf(id, found) == Report(NotFound(id))
    ensures found.Some? && HasErrors(found.value.v1) ==>
      StatusOf(id, found) == Report(Found(id, found.value.v1.dateRequested, Errors(found.value.v1.errors.value)))
    ensures found.Some? && !HasErrors(found.value.v1) && found.value.v1.pages.None? ==>
      StatusOf(id, found) == Report(Found(id, found.value.v1.dateRequested, Running(0)))
    ensures found.Some? && !HasErrors(found.value.v1) && found.value.v1.pages == Some([]) ==>
      StatusOf(id, found) == DivisionByZeroError
  {
  }

  /** A page with a status but no `links` key counts as done and earns
      nothing. */
  lemma StatusWithoutLinks(p: PageV1, w: real)
    requires p.status.Some? && p.links.None?
    ensures PageDone(p) && PageCredit(p, w) == 0.0
  {
  }

  /** `Refines(p, q)`: `q` is `p` with possibly more link statuses set. */
  predicate Refines(p: PageV1, q: PageV1) {
    && p.links.Some? == q.links.Some?
    && (p.links.Some? ==>
          && |p.links.value| == |q.links.value|
          && forall j :: 0 <= j < |p.links.value| ==>
               p.links.value[j].1.status.Some? ==> q.links.value[j].1.status.Some?)
  }

  lemma {:induction false} StatusedLinksMonotone(ls: OrdMap<LinkV1>, ms: OrdMap<LinkV1>)
    requires |ls| == |ms|
    requires forall j :: 0 <= j < |ls| ==> ls[j].1.status.Some? ==> ms[j].1.status.Some?
    ensures StatusedLinks(ls) <= StatusedLinks(ms)
  {
    if |ls| > 0 {
      var n := |ls| - 1;
      StatusedLinksMonotone(ls[..n], ms[..n]);
    }
  }

  /** Setting more link statuses never lowers a page's credit. */
  lemma PageCreditMonotone(p: PageV1, q: PageV1, w: real)
    requires w >= 0.0 && Refines(p, q)
    ensures PageCredit(p, w) <= PageCredit(q, w)
  {
    if p.links.Some? && |p.links.value| > 0 {
      StatusedLinksMonotone(p.links.value, q.links.value);
      var h := (w / 2.0) / (|p.links.value| as real);
      TimesMonotone(StatusedLinks(p.links.value), StatusedLinks(q.links.value), h);
    }
  }

  /** ... nor the audit's total. */
  lemma {:induction false} CreditMonotone(ps: OrdMap<PageV1>, qs: OrdMap<PageV1>, w: real)
    requires w >= 0.0 && |ps| == |qs|
    requires forall i :: 0 <= i < |ps| ==> Refines(ps[i].1, qs[i].1)
    ensures Credit(ps, w) <= Credit(qs, w)
  {
    if |ps| > 0 {
      var n := |ps| - 1;
      CreditMonotone(ps[..n], qs[..n], w);
      PageCreditMonotone(ps[n].1, qs[n].1, w);
    }
  }

  /** The facade reads only the long keys, so a record in the engine's
      short-key format (every record once `getData` has upgraded it, and
      every record the engine has saved) reads as running at 0 with no
      request date, whatever its pages say. */
  lemma ShortKeyRecordsReadAsRunning(id: string, a: AuditArray)
    requires a.v1 == NoV1
    ensures StatusOf(id, Some(a)) == Report(Found(id, None, Running(0)))
  {
  }

  /** An upgraded v1 record is such a record. */
  lemma UpgradedReadsAsRunning(id: string, a: AuditArray)
    requires a.v1.id.Some?
    ensures StatusOf(id, Some(Upgrade(a))) == Report(Found(id, None, Running(0)))
  {
  }

  /** A long-key record with an error: `getStatus` reports its errors
      while the record is read as written, and `RUNNING` 0 once `getData` has
      upgraded it, as it does for every record read from the store. */
  lemma ErrorsLostOnUpgrade(id: string, url: string, now: string, message: string)
    ensures var a := InV1(AuditV1(Some(id), Some(url), Some(now), Some([message]), None, None, None));
      && StatusOf(id, Some(a)) == Report(Found(id, Some(now), Errors([message])))
      && StatusOf(id, Some(Upgrade(a))) == Report(Found(id, None, Running(0)))
  {
  }

  /** `getStatus` reading the record in the format `getData` returns: a
      short-key record is read through its long-key form. */
  function CorrectedStatusOf(id: string, found: Option<AuditArray>): StatusResult {
    if found.Some? && found.value.v1 == NoV1 then StatusOf(id, Some(InV1(RestoreAudit(found.value.v2))))
    else StatusOf(id, found)
  }

  /** Reading a stored request record reports what it held before the
      upgrade: errors, dates and progress survive it. */
  lemma CorrectedStatusSurvivesUpgrade(id: string, d: AuditV1)
    requires d.id.Some?
    ensures CorrectedStatusOf(id, Some(Upgrade(InV1(d)))) == StatusOf(id, Some(InV1(d)))
  {
    MigrationLossless(d);
  }

  /** The error text the engine writes is reported as the audit's error. */
  lemma CorrectedStatusReportsEngineErrors(id: string, a: AuditArray, text: string)
    requires a.v1 == NoV1 && a.v2.errors == Some(ErrorText(text))
    ensures CorrectedStatusOf(id, Some(a)) == Report(Found(id, a.v2.dateRequested, Errors([text])))
  {
  }

  // ---------------------------------------------------------------------------
  // The loops themselves.
  // ---------------------------------------------------------------------------

  /** Lines 111-121 for one page with a non-empty link list. */
  method TallyLinksLoop(percent0: real, linksDone0: bool, links: OrdMap<LinkV1>, share: real)
    returns (percent: real, allLinksAreDone: bool)
    ensures Tally(percent, allLinksAreDone) == TallyLinks(Tally(percent0, linksDone0), links, share)
  {
    percent, allLinksAreDone := percent0, linksDone0;
    for j := 0 to |links|
      invariant Tally(percent, allLinksAreDone) == TallyLinks(Tally(percent0, linksDone0), links[..j], share)
    {
      assert links[..j + 1][..j] == links[..j];
      if links[j].1.status.Some? {
        percent := percent + share;
      } else {
        allLinksAreDone := false;
      }
    }
    assert links[..|links|] == links;
  }

  /** Lines 100-126: the nested loops over the pages and their links. */
  method TallyPagesLoop(pages: OrdMap<PageV1>, pagePercent: real) returns (percent: real, allPagesAreDone: bool)
    ensures Tally(percent, allPagesAreDone) == TallyPages(pages, pagePercent)
  {
    percent, allPagesAreDone := 0.0, true;
    for i := 0 to |pages|
      invariant Tally(percent, allPagesAreDone) == TallyPages(pages[..i], pagePercent)
    {
      assert pages[..i + 1][..i] == pages[..i];
      var pageData := pages[i].1;
      var allLinksAreDone := pageData.status.Some?;
      if pageData.links.Some? {
        var totalPageLinks := |pageData.links.value|;
        if totalPageLinks > 0 {
          percent := percent + pagePercent / 2.0;
          var pageLinkPercent := (pagePercent / 2.0) / (totalPageLinks as real);
          percent, allLinksAreDone := TallyLinksLoop(percent, allLinksAreDone, pageData.links.value, pageLinkPercent);
        } else {
          percent := percent + pagePercent;
        }
      }
      if !allLinksAreDone {
        allPagesAreDone := false;
      }
    }
    assert pages[..|pages|] == pages;
  }

  /** Lines 84-137 given what `getData` returned. */
  method StatusLoop(id: string, found: Option<AuditArray>) returns (r: StatusResult)
    ensures r == StatusOf(id, found)
  {
    if found.None? {
      return Report(NotFound(id));
    }
    var data := found.value.v1;
    if HasErrors(data) {
      return Report(Found(id, data.dateRequested, Errors(data.errors.value)));
    }
    if data.pages.None? {
      return Report(Found(id, data.dateRequested, Running(0)));
    }
    var totalPages := |data.pages.value|;
    if totalPages == 0 {
      return DivisionByZeroError;
    }
    var pagePercent := 100.0 / (totalPages as real);
    var percent, allPagesAreDone := TallyPagesLoop(data.pages.value, pagePercent);
    if allPagesAreDone {
      r := Report(Found(id, data.dateRequested, Done));
    } else {
      r := Report(Found(id, data.dateRequested, Running(Percent(percent))));
    }
  }
}
