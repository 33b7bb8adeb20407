/** The audit engine's state and tasks (classes/Audits/Internal/Utilities.php):
    the data store holding each record under its data key, the in-process
    `$cache` of decoded records, the framework cache of URL statuses and the
    task queue. Every method reads and writes them as the PHP code does; a
    ghost trace records the order of requests, writes and enqueues. */
module Engine {
  import opened PhpArray
  import opened PhpString
  import opened Urls
  import opened Records
  import opened Platform
  import opened Discovery
  import opened PageCheck
  import opened LinkCheck

  /** What a method does outside the record: a request (with or without the
      body), a record written or deleted, a status cached, tasks queued. */
  datatype Effect =
    | Fetched(url: string, withBody: bool)
    | Stored(key: string)
    | Deleted(key: string)
    | StatusCached(key: string)
    | TasksAdded(tasks: seq<Task>)

  function Requests(urls: seq<string>): seq<Effect> {
    seq(|urls|, i requires 0 <= i < |urls| => Fetched(urls[i], true))
  }

  /** One `addMultiple` call, made only when there is something to add. */
  function Enqueued(ts: seq<Task>): seq<Effect> {
    if |ts| > 0 then [TasksAdded(ts)] else []
  }

  /** One `add` call per task, in order. */
  function AddCalls(ts: seq<Task>): seq<Effect> {
    seq(|ts|, i requires 0 <= i < |ts| => TasksAdded([ts[i]]))
  }

  /** `checkPage`'s effects: the page request, its status cached, one `add`
      per link missing from the cache, and the record saved. */
  function PageEffects(md5: string -> string, id: string, o: PageCheckOutcome): seq<Effect> {
    [Fetched(o.fetched, true), StatusCached(UrlStatusKey(md5, id, o.fetched))]
      + AddCalls(o.misses) + [Stored(DataKey(md5, id))]
  }

  /** `updateLinkData`'s effects: a request without the body and a cache
      write, only when the status was not cached. */
  function LinkEffects(md5: string -> string, id: string, u: LinkUpdate): seq<Effect> {
    if u.requested.Some? then [Fetched(u.requested.value, false), StatusCached(UrlStatusKey(md5, id, u.requested.value))]
    else []
  }

  // ---------------------------------------------------------------------------
  // The task queue: `$app->tasks->add` with `ignoreIfExists` skips a task
  // whose id is already queued.
  // ---------------------------------------------------------------------------

  predicate Queued(queue: seq<Task>, taskId: string) {
    exists k :: 0 <= k < |queue| && TaskId(queue[k]) == Some(taskId)
  }

  function Added(queue: seq<Task>, t: Task): seq<Task> {
    if TaskId(t).Some? && Queued(queue, TaskId(t).value) then queue else queue + [t]
  }

  function AddedAll(queue: seq<Task>, ts: seq<Task>): seq<Task> {
    if |ts| == 0 then queue else Added(AddedAll(queue, ts[..|ts| - 1]), ts[|ts| - 1])
  }

  /** No two queued tasks share an id. */
  predicate UniqueTaskIds(queue: seq<Task>) {
    forall i, j :: 0 <= i < j < |queue| ==> TaskId(queue[i]).None? || TaskId(queue[i]) != TaskId(queue[j])
  }

  /** Adding tasks keeps ids unique, only appends, and leaves every added
      task's id queued. */
  lemma {:induction false} AddedAllKeepsIdsUnique(queue: seq<Task>, ts: seq<Task>)
    requires UniqueTaskIds(queue)
    ensures var r := AddedAll(queue, ts);
      && UniqueTaskIds(r)
      && queue <= r
      && forall t :: t in ts && TaskId(t).Some? ==> Queued(r, TaskId(t).value)
  {
    if |ts| > 0 {
      var init := ts[..|ts| - 1];
      var t := ts[|ts| - 1];
      AddedAllKeepsIdsUnique(queue, init);
      var q := AddedAll(queue, init);
      var r := Added(q, t);
      if r == q + [t] {
        assert r[|q|] == t;
        forall i | 0 <= i < |q| ensures TaskId(r[i]).None? || TaskId(r[i]) != TaskId(t) {
          assert r[i] == q[i];
        }
      }
      forall u | u in ts && TaskId(u).Some? ensures Queued(r, TaskId(u).value) {
        if u == t {
          if r == q + [t] {
            assert r[|q|] == t;
          }
        } else {
          assert u in init;
          var k :| 0 <= k < |q| && TaskId(q[k]) == TaskId(u);
          assert r[k] == q[k];
        }
      }
    }
  }

  /** Tasks without an id are always appended. */
  lemma {:induction false} AddedAllWithoutIds(queue: seq<Task>, ts: seq<Task>)
    requires forall t :: t in ts ==> TaskId(t).None?
    ensures AddedAll(queue, ts) == queue + ts
  {
    if |ts| > 0 {
      var init := ts[..|ts| - 1];
      assert forall t :: t in init ==> t in ts;
      AddedAllWithoutIds(queue, init);
      assert init + [ts[|ts| - 1]] == ts;
    }
  }

  class Utilities {
    /** PHP's `md5`. */
    const md5: string -> string
    /** `$app->data`, by data key. JSON encoding and decoding are the identity. */
    var store: map<string, AuditArray>
    /** `Utilities::$cache`, by audit id; a `None` entry is a cached `null`. */
    var records: map<string, Option<AuditArray>>
    /** `$app->cache`, the URL statuses by status-cache key. */
    var statusCache: StatusCache
    /** `$app->tasks`, in the order added. */
    var tasks: seq<Task>
    ghost var trace: seq<Effect>

    /** Keys are collision-free, queued task ids are unique, and the cached
        records agree with the store. */
    ghost predicate Valid()
      reads this`store, this`records, this`tasks
    {
      Injective(md5) && UniqueTaskIds(tasks) && Coherent()
    }

    /** A cached record is what the store holds under its key, as written or
        as upgraded when it was read. */
    ghost predicate Coherent()
      reads this`store, this`records
    {
      forall id :: id in records && records[id].Some? ==>
        DataKey(md5, id) in store &&
        (records[id].value == store[DataKey(md5, id)] || records[id].value == Upgrade(store[DataKey(md5, id)]))
    }

    constructor (md5: string -> string)
      requires Injective(md5)
      ensures Valid()
      ensures this.md5 == md5 && store == map[] && records == map[] && statusCache == map[]
      ensures tasks == [] && trace == []
    {
      this.md5 := md5;
      store, records, statusCache, tasks, trace := map[], map[], map[], [], [];
    }

    /** What `getData($id)` returns in the current state. */
    function Peek(id: string): Option<AuditArray>
      reads this`store, this`records
    {
      if id in records && records[id].Some? then records[id]
      else if DataKey(md5, id) in store then Some(Upgrade(store[DataKey(md5, id)]))
      else None
    }

    /** `getData`: the cached record, or the stored one upgraded to format v2
        and cached (a missing one is cached as `null`). */
    method GetData(id: string) returns (r: Option<AuditArray>)
      requires Valid()
      modifies this
      ensures Valid()
      ensures r == old(Peek(id))
      ensures forall x :: Peek(x) == old(Peek(x))
      ensures old(id in records && records[id].Some?) ==> records == old(records)
      ensures !old(id in records && records[id].Some?) ==> records == old(records)[id := r]
      ensures store == old(store) && statusCache == old(statusCache)
      ensures tasks == old(tasks) && trace == old(trace)
    {
      if id in records && records[id].Some? {
        return records[id];
      }
      var key := DataKey(md5, id);
      if key in store {
        var u := UpgradeLoop(store[key]);
        r := Some(u);
      } else {
        r := None;
      }
      records := records[id := r];
    }

    /** The end of one unit of work: the next task runs in a new process,
        whose `$cache` is empty, while the store, the status cache and the
        queue persist. Each record then reads as the store holds it,
        upgraded. */
    method NewUnitOfWork()
      requires Valid()
      modifies this`records
      ensures Valid() && records == map[]
      ensures forall x :: Peek(x) == if DataKey(md5, x) in store then Some(Upgrade(store[DataKey(md5, x)])) else None
    {
      records := map[];
    }

    /** `setData`: the record is stored and cached as given. */
    method SetData(id: string, a: AuditArray)
      requires Valid()
      modifies this
      ensures Valid()
      ensures Peek(id) == Some(a)
      ensures store == old(store)[DataKey(md5, id) := a]
      ensures records == old(records)[id := Some(a)]
      ensures forall other :: other != id ==> Peek(other) == old(Peek(other))
      ensures statusCache == old(statusCache) && tasks == old(tasks)
      ensures trace == old(trace) + [Stored(DataKey(md5, id))]
    {
      var key := DataKey(md5, id);
      forall other | other != id ensures DataKey(md5, other) != key {
        if DataKey(md5, other) == key {
          DataKeyInjective(md5, other, id);
        }
      }
      store := store[key := a];
      records := records[id := Some(a)];
      trace := trace + [Stored(key)];
    }

    /** `deleteData`: the record is removed from the store and the cache. */
    method DeleteData(id: string)
      requires Valid()
      modifies this
      ensures Valid()
      ensures Peek(id) == None
      ensures store == old(store) - {DataKey(md5, id)}
      ensures forall other :: other != id ==> Peek(other) == old(Peek(other))
      ensures statusCache == old(statusCache) && tasks == old(tasks)
      ensures trace == old(trace) + [Deleted(DataKey(md5, id))]
    {
      var key := DataKey(md5, id);
      forall other | other != id ensures DataKey(md5, other) != key {
        if DataKey(md5, other) == key {
          DataKeyInjective(md5, other, id);
        }
      }
      store := store - {key};
      if id in records && records[id].Some? {
        records := records - {id};
      }
      trace := trace + [Deleted(key)];
    }

    /** `setURLStatusInCache` */
    method SetURLStatus(id: string, url: string, status: int, date: string)
      modifies this`statusCache, this`trace
      ensures statusCache == old(statusCache)[UrlStatusKey(md5, id, url) := CachedStatus(status, date)]
      ensures trace == old(trace) + [StatusCached(UrlStatusKey(md5, id, url))]
    {
      var key := UrlStatusKey(md5, id, url);
      statusCache := statusCache[key := CachedStatus(status, date)];
      trace := trace + [StatusCached(key)];
    }

    /** `$app->tasks->addMultiple`: the tasks are queued in order. */
    method AddTasks(ts: seq<Task>)
      requires Valid()
      modifies this`tasks, this`trace
      ensures Valid()
      ensures tasks == AddedAll(old(tasks), ts)
      ensures trace == old(trace) + [TasksAdded(ts)]
    {
      AddedAllKeepsIdsUnique(tasks, ts);
      tasks := AddedAll(tasks, ts);
      trace := trace + [TasksAdded(ts)];
    }

    /** `$app->tasks->add` with `ignoreIfExists`: a task whose id is queued already is dropped. */
    method AddTask(t: Task)
      requires Valid()
      modifies this`tasks, this`trace
      ensures Valid()
      ensures tasks == Added(old(tasks), t)
      ensures trace == old(trace) + [TasksAdded([t])]
    {
      assert AddedAll(tasks, [t]) == Added(AddedAll(tasks, []), t);
      AddedAllKeepsIdsUnique(tasks, [t]);
      tasks := Added(tasks, t);
      trace := trace + [TasksAdded([t])];
    }

    /** One `add` call per task, in order. */
    method AddEach(ts: seq<Task>)
      requires Valid()
      modifies this`tasks, this`trace
      ensures Valid()
      ensures tasks == AddedAll(old(tasks), ts)
      ensures trace == old(trace) + AddCalls(ts)
    {
      for i := 0 to |ts|
        invariant Valid()
        invariant tasks == AddedAll(old(tasks), ts[..i])
        invariant trace == old(trace) + AddCalls(ts[..i])
      {
        assert ts[..i + 1][..i] == ts[..i];
        assert AddCalls(ts[..i + 1]) == AddCalls(ts[..i]) + [TasksAdded([ts[i]])];
        AddTask(ts[i]);
      }
      assert ts[..|ts|] == ts;
    }

    /** `initializeAudit($id)`: robots.txt, the sitemap and the home page
        are requested, the record is saved with its pages, and then the
        check-page tasks are queued. A null base URL or an empty sitemap body
        ends the task after the first two requests, with nothing saved. */
    method InitializeAudit(id: string, w: World, time: int)
      requires Valid()
      modifies this
      ensures Valid()
      ensures statusCache == old(statusCache)
      ensures forall other :: other != id ==> Peek(other) == old(Peek(other))
      ensures old(Peek(id)).None? ==>
        Peek(id) == None && store == old(store) && tasks == old(tasks) && trace == old(trace)
      ensures old(Peek(id)).Some? ==>
        var a := old(Peek(id)).value;
        var o := Initialized(md5, id, a.v2, w, time);
        && (o.None? ==>
              && Peek(id) == Some(a) && store == old(store) && tasks == old(tasks)
              && trace == old(trace) + Requests(Discover(TextOf(a.v2.url), w).requested))
        && (o.Some? ==>
              && Peek(id) == Some(a.(v2 := o.value.data))
              && store == old(store)[DataKey(md5, id) := a.(v2 := o.value.data)]
              && tasks == old(tasks) + o.value.tasks
              && trace == old(trace) + Requests(Discover(a.v2.url.value, w).requested + [a.v2.url.value])
                           + [Stored(DataKey(md5, id))] + Enqueued(o.value.tasks))
    {
      var r := GetData(id);
      if r.None? {
        return;
      }
      var data := r.value;
      var d := data.v2;
      var o := InitializeSteps(md5, id, d, w, time);
      if o.None? {
        // The robots.txt and sitemap requests are made; the home-page
        // request then fails with a TypeError on a null base URL, or an
        // empty sitemap body has raised a ValueError.
        trace := trace + Requests(Discover(TextOf(d.url), w).requested);
        return;
      }
      trace := trace + Requests(Discover(d.url.value, w).requested + [d.url.value]);
      InitializedTasks(md5, id, d, w, time);
      SaveInitialized(id, data, o.value);
    }

    /** Lines 131-134: the record is saved, then the tasks are added when
        there are any. */
    method SaveInitialized(id: string, data: AuditArray, o: InitOutcome)
      requires Valid()
      requires forall t :: t in o.tasks ==> TaskId(t).None?
      modifies this
      ensures Valid()
      ensures Peek(id) == Some(data.(v2 := o.data))
      ensures forall other :: other != id ==> Peek(other) == old(Peek(other))
      ensures store == old(store)[DataKey(md5, id) := data.(v2 := o.data)]
      ensures statusCache == old(statusCache)
      ensures tasks == old(tasks) + o.tasks
      ensures trace == old(trace) + [Stored(DataKey(md5, id))] + Enqueued(o.tasks)
    {
      SetData(id, data.(v2 := o.data));
      AddedAllWithoutIds(tasks, o.tasks);
      if |o.tasks| > 0 {
        AddTasks(o.tasks);
      }
    }

    /** `checkPage($id, $pageID)`: the page is requested and its status
        cached; on 200 its fields and links are rebuilt and a check-link task
        is added for each link without a cached status; then the record is
        saved. Nothing happens when the record or the page is missing, or
        when a null base or page URL makes `getFullURL` fail. */
    method CheckPage(id: string, pageID: string, w: World, now: string)
      requires Valid()
      modifies this
      ensures Valid()
      ensures forall other :: other != id ==> Peek(other) == old(Peek(other))
      ensures old(Peek(id)).None? ==>
        Peek(id) == None && store == old(store) && statusCache == old(statusCache) && tasks == old(tasks) && trace == old(trace)
      ensures old(Peek(id)).Some? ==>
        var a := old(Peek(id)).value;
        var o := CheckPageOutcome(md5, id, pageID, a.v2, old(statusCache), w, now);
        && (o.None? ==>
              && Peek(id) == Some(a)
              && store == old(store) && statusCache == old(statusCache) && tasks == old(tasks) && trace == old(trace))
        && (o.Some? ==>
              && Peek(id) == Some(a.(v2 := o.value.data))
              && store == old(store)[DataKey(md5, id) := a.(v2 := o.value.data)]
              && statusCache == o.value.cache
              && tasks == AddedAll(old(tasks), o.value.misses)
              && trace == old(trace) + PageEffects(md5, id, o.value))
    {
      var r := GetData(id);
      if r.None? {
        return;
      }
      var data := r.value;
      var o := CheckPageSteps(md5, id, pageID, data.v2, statusCache, w, now);
      if o.None? {
        return;
      }
      CheckPageCaches(md5, id, pageID, data.v2, statusCache, w, now);
      SavePageCheck(id, data, o.value, w.get(o.value.fetched).status, now);
    }

    /** Lines 153-156, 220 and 230-231: the request made, the page's status
        cached, the check-link tasks added and the record saved. */
    method SavePageCheck(id: string, data: AuditArray, c: PageCheckOutcome, status: int, now: string)
      requires Valid()
      modifies this
      ensures Valid()
      ensures Peek(id) == Some(data.(v2 := c.data))
      ensures forall other :: other != id ==> Peek(other) == old(Peek(other))
      ensures store == old(store)[DataKey(md5, id) := data.(v2 := c.data)]
      ensures statusCache == old(statusCache)[UrlStatusKey(md5, id, c.fetched) := CachedStatus(status, now)]
      ensures tasks == AddedAll(old(tasks), c.misses)
      ensures trace == old(trace) + PageEffects(md5, id, c)
    {
      trace := trace + [Fetched(c.fetched, true)];
      SetURLStatus(id, c.fetched, status, now);
      AddEach(c.misses);
      SetData(id, data.(v2 := c.data));
    }

    /** `updateLinkData`: the status of the link URL comes from the cache, or
        from a request without the body that is then cached; it is written
        into every link of the record awaiting that short URL. `None` when a
        null base URL makes `getFullURL` fail. */
    method UpdateLinkData(id: string, d: AuditV2, url: string, w: World, now: string)
      returns (r: Option<AuditV2>)
      modifies this`statusCache, this`trace
      ensures var u := LinkCheck.UpdateLinkData(md5, id, d, url, old(statusCache), w, now);
        && (u.None? ==> r.None? && statusCache == old(statusCache) && trace == old(trace))
        && (u.Some? ==>
              && r == Some(u.value.data)
              && statusCache == u.value.cache
              && trace == old(trace) + LinkEffects(md5, id, u.value))
    {
      if d.url.None? {
        return None;
      }
      var fullPageLinkURL := FullURL(d.url.value, url);
      var hit := CachedStatusOf(statusCache, md5, id, fullPageLinkURL);
      var status, date;
      if hit.Some? {
        status, date := hit.value.status, hit.value.date;
      } else {
        date := now;
        status := w.head(fullPageLinkURL);
        trace := trace + [Fetched(fullPageLinkURL, false)];
        SetURLStatus(id, fullPageLinkURL, status, date);
      }
      var pages := d.pages;
      if pages.Some? {
        var patched := PatchPagesLoop(pages.value, url, status, date);
        pages := Some(patched);
      }
      r := Some(d.(pages := pages));
    }

    /** `checkLink($id, $url)`: the links with this short URL are updated
        and the record saved. */
    method CheckLink(id: string, url: string, w: World, now: string)
      requires Valid()
      modifies this
      ensures Valid()
      ensures tasks == old(tasks)
      ensures forall other :: other != id ==> Peek(other) == old(Peek(other))
      ensures old(Peek(id)).None? ==>
        Peek(id) == None && store == old(store) && statusCache == old(statusCache) && trace == old(trace)
      ensures old(Peek(id)).Some? ==>
        var a := old(Peek(id)).value;
        var u := LinkCheck.UpdateLinkData(md5, id, a.v2, url, old(statusCache), w, now);
        && (u.None? ==> Peek(id) == Some(a) && store == old(store) && statusCache == old(statusCache) && trace == old(trace))
        && (u.Some? ==>
              && Peek(id) == Some(a.(v2 := u.value.data))
              && store == old(store)[DataKey(md5, id) := a.(v2 := u.value.data)]
              && statusCache == u.value.cache
              && trace == old(trace) + LinkEffects(md5, id, u.value) + [Stored(DataKey(md5, id))])
    {
      var r := GetData(id);
      if r.None? {
        return;
      }
      var data := r.value;
      var d := UpdateLinkData(id, data.v2, url, w, now);
      if d.Some? {
        SetData(id, data.(v2 := d.value));
      }
    }

    /** `checkPageLink($id, $pageID, $linkID)`: as `checkLink` for the
        link's short URL, unless the link is missing or has its status
        already. */
    method CheckPageLink(id: string, pageID: string, linkID: string, w: World, now: string)
      requires Valid()
      modifies this
      ensures Valid()
      ensures tasks == old(tasks)
      ensures forall other :: other != id ==> Peek(other) == old(Peek(other))
      ensures old(Peek(id)).None? ==>
        Peek(id) == None && store == old(store) && statusCache == old(statusCache) && trace == old(trace)
      ensures old(Peek(id)).Some? ==>
        var a := old(Peek(id)).value;
        var url := LinkToSettle(a.v2, pageID, linkID);
        var u := if url.Some? then LinkCheck.UpdateLinkData(md5, id, a.v2, url.value, old(statusCache), w, now) else None;
        && (u.None? ==> Peek(id) == Some(a) && store == old(store) && statusCache == old(statusCache) && trace == old(trace))
        && (u.Some? ==>
              && Peek(id) == Some(a.(v2 := u.value.data))
              && store == old(store)[DataKey(md5, id) := a.(v2 := u.value.data)]
              && statusCache == u.value.cache
              && trace == old(trace) + LinkEffects(md5, id, u.value) + [Stored(DataKey(md5, id))])
    {
      var r := GetData(id);
      if r.None? {
        return;
      }
      var data := r.value;
      var pages := data.v2.pages;
      if !(pages.Some? && HasKey(pages.value, pageID)) {
        return;
      }
      var pageData := Get(pages.value, pageID).value;
      if !(pageData.links.Some? && HasKey(pageData.links.value, linkID)) {
        return;
      }
      var linkData := Get(pageData.links.value, linkID).value;
      if linkData.status.Some? {
        // Already set by another task.
        return;
      }
      if linkData.url.None? {
        // `updateLinkData` takes a string: a null URL is a TypeError.
        return;
      }
      var d := UpdateLinkData(id, data.v2, linkData.url.value, w, now);
      if d.Some? {
        SetData(id, data.(v2 := d.value));
      }
    }
  }
}
