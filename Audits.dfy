/** The public facade `BearCMS\Audits`, classes/Audits.php: it
    requests an audit, deletes one, and reports the status and the results of
    one from the record the engine keeps. */
module AuditsFacade {
  import opened PhpArray
  import opened Records
  import opened Platform
  import opened Discovery
  import opened Engine
  import opened Progress
  import opened Results

  /** The array `request` stores: `pages`, `allowSearchEngines` null,
      no errors, and the requested page limit. */
  function RequestRecord(id: string, homeURL: string, now: string, maxPagesCount: Option<int>): AuditArray {
    InV1(AuditV1(Some(id), Some(homeURL), Some(now), Some([]), None, maxPagesCount, None))
  }

  /** A new audit reads as running at 0 with its request date and as having
      no pages; once read back from the store and upgraded, its date is
      gone as well. */
  lemma RequestedIsRunning(id: string, homeURL: string, now: string, maxPagesCount: Option<int>)
    ensures var a := RequestRecord(id, homeURL, now, maxPagesCount);
      && StatusOf(id, Some(a)) == Report(Found(id, Some(now), Running(0)))
      && ResultsOf(id, Some(a)) == AuditResults(id, Some(now), [], None, Some(maxPagesCount))
      && StatusOf(id, Some(Upgrade(a))) == Report(Found(id, None, Running(0)))
      && Upgrade(a).v2.id == Some(id) && Upgrade(a).v2.url == Some(homeURL)
      && Upgrade(a).v2.errors == Some(ErrorList([])) && Upgrade(a).v2.maxPagesCount == maxPagesCount
  {
  }

  /** An audit whose robots.txt cannot be read: `initializeAudit` stores the
      problem message under the short key `e`, and `getStatus`, which reads
      only `errors`, reports the audit as running at 0 with no request date;
      read through its long-key form, the same record reports the error. */
  lemma RobotsFailureReadsAsRunning(md5: string -> string, id: string, d: AuditV2, w: World, time: int)
    requires d.url.Some? && w.get(d.url.value + RobotsFile).status != 200
    ensures var message := ProblemMessage(d.url.value + RobotsFile, w.get(d.url.value + RobotsFile).status);
      var o := Initialized(md5, id, d, w, time);
      && o.Some?
      && o.value.data.errors == Some(ErrorText(message))
      && StatusOf(id, Some(InV2(o.value.data))) == Report(Found(id, None, Running(0)))
      && CorrectedStatusOf(id, Some(InV2(o.value.data))) == Report(Found(id, d.dateRequested, Errors([message])))
  {
    var base := d.url.value;
    RobotsFailure(base, w);
    var o := Initialized(md5, id, d, w, time).value;
    ShortKeyRecordsReadAsRunning(id, InV2(o.data));
    CorrectedStatusReportsEngineErrors(id, InV2(o.data), ProblemMessage(base + RobotsFile, w.get(base + RobotsFile).status));
  }

  /** A sitemap that lists no URL: `initializeAudit` saves an empty `p` and
      no `e`. The facade as written reads the record as running at 0; read
      through its long-key form it reaches `100 / count([])`, so the
      corrected reading still needs a guard for an empty pages array. */
  lemma EmptySitemapCorrectedDivides(md5: string -> string, id: string, homeURL: string, now: string,
                                     maxPagesCount: Option<int>, w: World, time: int)
    requires !SitemapAborts(homeURL, w)
    requires Discover(homeURL, w).error.None? && Discover(homeURL, w).urls == []
    ensures var a := Upgrade(RequestRecord(id, homeURL, now, maxPagesCount));
      var o := Initialized(md5, id, a.v2, w, time);
      && o.Some? && o.value.data.pages == Some([])
      && StatusOf(id, Some(a.(v2 := o.value.data))) == Report(Found(id, None, Running(0)))
      && CorrectedStatusOf(id, Some(a.(v2 := o.value.data))) == DivisionByZeroError
  {
    RequestedIsRunning(id, homeURL, now, maxPagesCount);
    var a := Upgrade(RequestRecord(id, homeURL, now, maxPagesCount));
    var o := Initialized(md5, id, a.v2, w, time).value;
    assert Unique([]) == [];
    assert o.data.pages == Some([]);
    ShortKeyRecordsReadAsRunning(id, a.(v2 := o.data));
  }

  class Audits {
    /** The engine's state, shared with the tasks it runs. */
    const utilities: Utilities

    constructor (utilities: Utilities)
      ensures this.utilities == utilities
    {
      this.utilities := utilities;
    }

    /** `request`: the id is the md5 of `uniqid()`, passed in as `unique`;
        the home URL and the date are passed in as well. The record is
        stored before the initialize task is queued. */
    method Request(unique: string, homeURL: string, now: string, maxPagesCount: Option<int>) returns (id: string)
      requires utilities.Valid()
      modifies utilities
      ensures utilities.Valid()
      ensures id == utilities.md5(unique)
      ensures utilities.Peek(id) == Some(RequestRecord(id, homeURL, now, maxPagesCount))
      ensures utilities.store == old(utilities.store)[DataKey(utilities.md5, id) := RequestRecord(id, homeURL, now, maxPagesCount)]
      ensures forall other :: other != id ==> utilities.Peek(other) == old(utilities.Peek(other))
      ensures utilities.statusCache == old(utilities.statusCache)
      ensures utilities.tasks == old(utilities.tasks) + [InitializeTask(id)]
      ensures utilities.trace ==
        old(utilities.trace) + [Stored(DataKey(utilities.md5, id)), TasksAdded([InitializeTask(id)])]
    {
      id := utilities.md5(unique);
      var data := RequestRecord(id, homeURL, now, maxPagesCount);
      utilities.SetData(id, data);
      utilities.AddTask(InitializeTask(id));
    }

    /** `delete` */
    method Delete(id: string)
      requires utilities.Valid()
      modifies utilities
      ensures utilities.Valid()
      ensures utilities.Peek(id) == None
      ensures utilities.store == old(utilities.store) - {DataKey(utilities.md5, id)}
      ensures forall other :: other != id ==> utilities.Peek(other) == old(utilities.Peek(other))
      ensures utilities.statusCache == old(utilities.statusCache) && utilities.tasks == old(utilities.tasks)
    {
      utilities.DeleteData(id);
    }

    /** `getStatus`: reads the record and nothing else; no request is made. */
    method GetStatus(id: string) returns (r: StatusResult)
      requires utilities.Valid()
      modifies utilities
      ensures utilities.Valid()
      ensures r == StatusOf(id, old(utilities.Peek(id)))
      ensures utilities.store == old(utilities.store) && utilities.statusCache == old(utilities.statusCache)
      ensures utilities.tasks == old(utilities.tasks) && utilities.trace == old(utilities.trace)
      ensures forall other :: utilities.Peek(other) == old(utilities.Peek(other))
    {
      var data := utilities.GetData(id);
      r := StatusLoop(id, data);
    }

    /** `getResults`: reads the record and nothing else. */
    method GetResults(id: string) returns (r: AuditResults)
      requires utilities.Valid()
      modifies utilities
      ensures utilities.Valid()
      ensures r == ResultsOf(id, old(utilities.Peek(id)))
      ensures utilities.store == old(utilities.store) && utilities.statusCache == old(utilities.statusCache)
      ensures utilities.tasks == old(utilities.tasks) && utilities.trace == old(utilities.trace)
      ensures forall other :: utilities.Peek(other) == old(utilities.Peek(other))
    {
      var data := utilities.GetData(id);
      r := ResultsLoop(id, data);
    }
  }

  /** `request` in one process and its initialize task in the next. The task
      starts with an empty `$cache`, reads the stored record upgraded, finds
      its home URL under `u`, and saves the initialized record after the
      initialize task, before its check-page tasks; or, when the sitemap
      answers 200 with an empty body, saves nothing, and the audit keeps the
      record `request` stored. */
  method RequestThenInitialize(audits: Audits, unique: string, homeURL: string, now: string,
                               maxPagesCount: Option<int>, w: World, time: int) returns (id: string)
    requires audits.utilities.Valid()
    modifies audits.utilities
    ensures audits.utilities.Valid()
    ensures id == audits.utilities.md5(unique)
    ensures var a := Upgrade(RequestRecord(id, homeURL, now, maxPagesCount));
      var o := Initialized(audits.utilities.md5, id, a.v2, w, time);
      && a.v2.url == Some(homeURL)
      && (o.Some? <==> !SitemapAborts(homeURL, w))
      && (o.None? ==>
            && audits.utilities.Peek(id) == Some(a)
            && audits.utilities.store == old(audits.utilities.store)[DataKey(audits.utilities.md5, id) := RequestRecord(id, homeURL, now, maxPagesCount)]
            && audits.utilities.tasks == old(audits.utilities.tasks) + [InitializeTask(id)])
      && (o.Some? ==>
            && audits.utilities.Peek(id) == Some(a.(v2 := o.value.data))
            && audits.utilities.store == old(audits.utilities.store)[DataKey(audits.utilities.md5, id) := a.(v2 := o.value.data)]
            && audits.utilities.tasks == old(audits.utilities.tasks) + [InitializeTask(id)] + o.value.tasks)
  {
    id := audits.Request(unique, homeURL, now, maxPagesCount);
    RequestedIsRunning(id, homeURL, now, maxPagesCount);
    ghost var stored := RequestRecord(id, homeURL, now, maxPagesCount);
    audits.utilities.NewUnitOfWork();
    assert audits.utilities.Peek(id) == Some(Upgrade(stored));
    audits.utilities.InitializeAudit(id, w, time);
  }
}
