# Bear CMS audits add-on, modelled in Dafny

The model covers the audits add-on of Bear CMS, which has two parts:

- **The engine** (`BearCMS\Audits\Internal\Utilities`) runs as background tasks:
  - reads robots.txt and the sitemap of the site;
  - builds one page entry per sitemap URL, keeping the `maxPagesCount` cap;
  - checks each page and collects its links;
  - checks each link and writes the status into every page that links to it;
  - keeps the audit record in a data store, with an in-process cache, and caches URL statuses.
- **The facade** (`BearCMS\Audits`) lets callers request or delete an audit and query its status or its results.

How the PHP reads as Dafny:

- **Records.** A PHP array is an ordered list of key/value pairs (`PhpArray`). An audit record is a pair:
  - the long-key fields that `request` writes and the facade reads (`id`, `url`, `pages`, `errors`, `status`, `links`, `dateRequested`, …);
  - the short-key fields that the engine reads and writes (`i`, `u`, `p`, `e`, `s`, `l`, `d`, …).
- **Upgrade.** `getData` turns a stored record holding `id` into the short-key shape (`Records.Upgrade`).
- **The engine.** It is a class (`Engine.Utilities`) holding:
  - the data store, the in-process record cache, the URL-status cache and the task queue;
  - a ghost trace of requests, writes and queued tasks, which gives the order of effects.
- **Outside inputs:**
  - the network becomes a `World` value: responses for GET and HEAD requests, plus the HTML and XML parsers;
  - `md5` is an injective function given to the engine;
  - `date('c')`, `time()` and `uniqid()` become parameters.
- **The facade.** `getStatus` and `getResults` are loop methods. Each is proved equal to a function, and the lemmas about that function state what the code promises.

The facade reads long keys; the engine writes short keys. The model keeps this mismatch as the code has it. Any record that has been through `getData`'s upgrade, or written by the engine, reads as `RUNNING` 0 with no request date and no pages. Two lemmas prove this: `Progress.ShortKeyRecordsReadAsRunning` and `Results.ShortKeyRecordsShowNothing`. "## Findings" below gives the corrected reading.

## Model

| member | source | states |
|---|---|---|
| Urls.ShortURL | classes/Audits/Internal/Utilities.php:509-515 | the result is `*` plus the rest of the URL when the URL starts with the base, and the URL itself otherwise |
| Urls.FullURL | classes/Audits/Internal/Utilities.php:523-529 | a `*`-prefixed short URL expands to the base plus the rest; any other is returned unchanged |
| Urls.FullOfShort | classes/Audits/Internal/Utilities.php:509-529 | expanding the short form gives the URL back exactly when the URL starts with the base or does not begin with `*` (both directions) |
| Urls.ShortIsMarked | classes/Audits/Internal/Utilities.php:509-515 | a short URL starts with `*` exactly when the URL starts with the base or already began with `*` |
| Urls.ShortOfFull | classes/Audits/Internal/Utilities.php:509-529 | shortening an expanded URL gives it back exactly when it was `*`-marked or does not start with the base |
| PhpString.Trim | classes/Audits/Internal/Utilities.php:74 | `trim` returns a contiguous slice of its input with no whitespace at either end, and every character it removes is whitespace (space, tab, LF, CR, NUL, VT) |
| PhpString.ToLower | classes/Audits/Internal/Utilities.php:74 | `strtolower` keeps the length and lowers each ASCII letter at its position |
| PhpString.RemoveSpaces | classes/Audits/Internal/Utilities.php:78 | `str_replace(' ', '', …)` leaves no space and never lengthens the line |
| PhpString.RemoveSpacesKeepsOthers | classes/Audits/Internal/Utilities.php:78 | every character other than a space is kept, as often as it occurs |
| PhpString.RemoveSpacesAppend | classes/Audits/Internal/Utilities.php:78 | removing spaces from two pieces joined is joining the two results, so the kept characters stay in order |
| PhpString.Explode | classes/Audits/Internal/Utilities.php:70 | `explode("\n", …)` gives at least one piece, no piece holds a line feed, and joining the pieces with line feeds gives the text back |
| PhpString.DecimalRoundTrip | classes/Audits/Internal/Utilities.php:204 | the decimal form of the link counter reads back as the same number |
| PhpString.NatToDecimalInjective | classes/Audits/Internal/Utilities.php:204 | distinct counters are written as distinct strings |
| Discovery.ScanLine | classes/Audits/Internal/Utilities.php:74-82 | one robots.txt line clears the allow flag exactly when it is a blanket `disallow:/`; a `sitemap:` line replaces the sitemap URL with its trimmed remainder; any other line changes nothing |
| Discovery.AllowUnlessDisallowed | classes/Audits/Internal/Utilities.php:72-83 | after the scan, search engines are disallowed if and only if some line, after trimming, lowercasing and removing spaces, is `disallow:/` |
| Discovery.AllowIsFold | classes/Audits/Internal/Utilities.php:72-83 | the allow flag the scan leaves is "no line is a blanket disallow" |
| Discovery.LastSitemapWins | classes/Audits/Internal/Utilities.php:73-83 | the sitemap URL taken is the remainder of the last `sitemap:` line |
| Discovery.NoSitemapLine | classes/Audits/Internal/Utilities.php:71-83 | with no `sitemap:` line the sitemap URL stays empty, which selects the fallback |
| Discovery.ScanRobotsLoop | classes/Audits/Internal/Utilities.php:70-83 | the `foreach` over the lines leaves the allow flag and sitemap URL that the scan function defines |
| Discovery.ScanLineStep | classes/Audits/Internal/Utilities.php:74-82 | one loop pass, including the `continue` on an empty line, is one scan step |
| PhpString.SignChar | classes/Audits/Internal/Utilities.php:60 | `(string)` of a status starts with `-` exactly for a negative status |
| PhpString.IntToDecimalInjective | classes/Audits/Internal/Utilities.php:60 | distinct statuses print differently |
| Discovery.ProblemMessageKeepsStatus | classes/Audits/Internal/Utilities.php:60 | the "There is a problem with … (status:…)" message determines the status it reports |
| Discovery.CollectLocsMembers | classes/Audits/Internal/Utilities.php:48-54 | a URL is collected exactly when some `url` element has it as its only `loc` |
| Discovery.CollectLocsLoop | classes/Audits/Internal/Utilities.php:49-54 | the loop over the `url` elements collects what the collection function defines, in order |
| Discovery.RobotsFailure | classes/Audits/Internal/Utilities.php:67-91 | a non-200 robots.txt sets `e` to the problem message with its URL and status, requests no sitemap and finds no URL |
| Discovery.RobotsSuccess | classes/Audits/Internal/Utilities.php:42-88 | a 200 robots.txt sets `a` to "no blanket disallow" and requests exactly one sitemap. The sitemap is the trimmed remainder of the last `sitemap:` line; it is `base + sitemap.xml` when that remainder is empty or no line names one. `e` is left unset exactly when the sitemap answers 200 and parses. The URLs found are then the single `loc`s of its `url` elements, and none otherwise |
| Discovery.SitemapOfLastLine | classes/Audits/Internal/Utilities.php:79-87 | the sitemap chosen is the remainder of the last `sitemap:` line, even an empty one, and an empty remainder selects `base + sitemap.xml` |
| Discovery.Unique | classes/Audits/Internal/Utilities.php:106 | `array_unique`: no duplicates, and the same members as the input |
| Discovery.UniqueOfDistinct | classes/Audits/Internal/Utilities.php:106 | a list without duplicates is returned unchanged |
| Discovery.UniqueLoop | classes/Audits/Internal/Utilities.php:106 | the first-occurrence loop computes the deduplication |
| Discovery.InsertPagesDistinctKeys | classes/Audits/Internal/Utilities.php:109-130 | the pages array never holds a page id twice, whatever the hash does |
| Discovery.TaskCountBound | classes/Audits/Internal/Utilities.php:116-122 | the number of tasks never exceeds the number of pages, and one more page adds a task exactly when the cap is not exceeded |
| Discovery.InsertPageStep | classes/Audits/Internal/Utilities.php:111-130 | one loop pass appends the page `md5(url)` with its short URL. It adds a check-page task while the cap allows and marks the page `s = -1` once the cap is exceeded |
| Discovery.InsertPagesShape | classes/Audits/Internal/Utilities.php:106-130 | for distinct page ids, page *i* is keyed `md5(urls[i])` with the short URL. Exactly the first `TaskCount(cap, n)` pages get a task (n without a cap, otherwise min(max(cap, 0), n)) with the audit id, the page id and the start time; every later page has `s = -1` |
| Discovery.InsertPagesTasks | classes/Audits/Internal/Utilities.php:123-129 | every queued task checks a page of this audit and starts at the current time |
| Discovery.InsertPagesLoop | classes/Audits/Internal/Utilities.php:109-130 | the page-insertion loop builds the pages and tasks that the insertion function defines |
| Discovery.ProcessSitemapSteps | classes/Audits/Internal/Utilities.php:42-63 | `$processSitemapURL` collects what the sitemap function defines, and ends the task exactly when the sitemap answers 200 with an empty body, which `loadXML` rejects with a `ValueError` that `catch (\Exception)` lets through |
| Discovery.DiscoverSteps | classes/Audits/Internal/Utilities.php:42-91 | the robots.txt and sitemap requests, in order, give the allow flag, URLs and error that the discovery function defines; the task ends there exactly when the requested sitemap answers 200 with an empty body |
| Discovery.InitializeSteps | classes/Audits/Internal/Utilities.php:32-130 | `initializeAudit`'s computation, without the writes, gives the record and tasks that the initialization function defines; none when the base URL is null or the sitemap answers 200 with an empty body |
| Discovery.InitializedTasks | classes/Audits/Internal/Utilities.php:123-129 | every task `initializeAudit` queues is a check-page task of this audit at the start time |
| Discovery.InitializedPages | classes/Audits/Internal/Utilities.php:106-131 | a record is saved exactly when the sitemap does not answer 200 with an empty body. The saved record keeps the id, URL, date and cap. Its page ids are the hashes of the deduplicated URLs in order, and the tasks number `TaskCount(cap, n)`: n without a cap, otherwise min(max(cap, 0), n) |
| Discovery.AssembledPages | classes/Audits/Internal/Utilities.php:106-131 | the same, for any robots.txt, sitemap and verification outcome |
| PageCheck.LinkIdSourceInjective | classes/Audits/Internal/Utilities.php:204 | the string `href-counter` determines both the href and the counter |
| PageCheck.LinkIdsDiffer | classes/Audits/Internal/Utilities.php:203-204 | links with different counters get different ids, even when the hrefs repeat |
| PageCheck.CheckLinkIdsDistinguishUrls | classes/Audits/Internal/Utilities.php:222-225 | two check-link tasks of one audit share an id exactly when their short URLs are equal, so `ignoreIfExists` keeps one task per distinct short URL |
| PageCheck.CounterCountsQualifying | classes/Audits/Internal/Utilities.php:199-203 | the counter ends at the number of qualifying anchors |
| PageCheck.LinksOfQualifying | classes/Audits/Internal/Utilities.php:198-228 | the links array holds, in order, one entry per qualifying anchor. The *k*-th is keyed `md5(href-k)` and holds the short URL, the trimmed title, and the cached status and date when the raw href is cached |
| PageCheck.ScanAnchorLinks | classes/Audits/Internal/Utilities.php:200-215 | one loop pass appends exactly one numbered entry for a qualifying anchor and nothing otherwise |
| PageCheck.LinksStep | classes/Audits/Internal/Utilities.php:204-211 | writing the new link entry appends it, since its id is new |
| PageCheck.MissesStep | classes/Audits/Internal/Utilities.php:212-226 | one pass queues a check-link task exactly for a qualifying anchor whose raw href is not in the status cache |
| PageCheck.MissesOfQualifying | classes/Audits/Internal/Utilities.php:198-228 | a check-link task is queued exactly when some qualifying anchor misses the cache and has that task's short URL (both directions) |
| PageCheck.ScanAnchorsLoop | classes/Audits/Internal/Utilities.php:198-228 | the anchor loop with its mutable counter builds the counter, links and tasks that the scan function defines |
| PageCheck.ScanAnchorStep | classes/Audits/Internal/Utilities.php:201-226 | one pass of the anchor loop is one scan step |
| PageCheck.CheckPageSteps | classes/Audits/Internal/Utilities.php:143-233 | `checkPage`'s computation, without the writes, gives the page outcome that the check function defines. It gives none when the page is missing or a base or page URL is null |
| PageCheck.CheckPageCaches | classes/Audits/Internal/Utilities.php:151-156 | the page's full URL is fetched and its status is cached under the status key with the current date |
| PageCheck.CheckPageFrame | classes/Audits/Internal/Utilities.php:233 | only the checked page's entry changes: the other record fields, the page ids and every other page stay |
| PageCheck.CheckPageFailure | classes/Audits/Internal/Utilities.php:154-157 | on a non-200 response only the page's `s` and `d` change, and no task is queued |
| PageCheck.CheckPageSuccess | classes/Audits/Internal/Utilities.php:154-228 | on 200 the page keeps its short URL and gets status 200, the date, and the parsed title, description, keywords, Open Graph image and body text. Its links are rebuilt from empty, one per qualifying anchor |
| PageCheck.CheckPageIdempotent | classes/Audits/Internal/Utilities.php:157-233 | checking the same page again with the same responses gives the same record and cache, so links are never duplicated |
| LinkCheck.PatchedLink | classes/Audits/Internal/Utilities.php:295-304 | a link awaiting this short URL (same `u`, no `s`) gets the status and date. Any other link, every other link field, every page field but the links, and every page and link id stay |
| LinkCheck.PatchedPageWithoutLinks | classes/Audits/Internal/Utilities.php:296 | a page without `l` is left as it is |
| LinkCheck.PatchSettles | classes/Audits/Internal/Utilities.php:295-304 | afterwards no link in any page still awaits this URL |
| LinkCheck.PatchIdempotent | classes/Audits/Internal/Utilities.php:295-304 | patching again, with any status, changes nothing |
| LinkCheck.PatchLinksLoop | classes/Audits/Internal/Utilities.php:297-302 | the inner loop patches the links that the patch function defines |
| LinkCheck.PatchPagesLoop | classes/Audits/Internal/Utilities.php:295-304 | the nested loops patch the pages that the patch function defines |
| LinkCheck.UpdateLinkDataEffects | classes/Audits/Internal/Utilities.php:284-306 | a request without the body is made, and the cache written, exactly on a cache miss. Every page is patched with the cached status or with the HEAD status and the current date, and only `p` changes |
| LinkCheck.UpdateLinkDataIdempotent | classes/Audits/Internal/Utilities.php:284-306 | a second update for the same URL finds the cached status, makes no request and changes nothing |
| LinkCheck.SettledAfterUpdate | classes/Audits/Internal/Utilities.php:251-256 | after the update, the link `checkPageLink` was queued for has a status, so a repeated task returns without writing |
| Records.Upgrade | classes/Audits/Internal/Utilities.php:323-390 | a decoded record holding `id` is rebuilt from its long keys alone; any other passes through unchanged |
| Records.UpgradeIdempotent | classes/Audits/Internal/Utilities.php:323-390 | an upgraded record has no long-key id, so upgrading twice is upgrading once |
| Records.MigrationKeepsIds | classes/Audits/Internal/Utilities.php:337-380 | the migration keeps whether pages exist, the page ids in order, whether each page has links, and each page's link ids |
| Records.MigrationLossless | classes/Audits/Internal/Utilities.php:323-390 | every long-key field the migration reads can be restored from the short-key record it builds |
| Records.MigrateLinksLoop | classes/Audits/Internal/Utilities.php:348-359 | the link loop renames every link, in order |
| Records.MigratePagesLoop | classes/Audits/Internal/Utilities.php:340-380 | the page loop renames every page and its links, in order |
| Records.UpgradeLoop | classes/Audits/Internal/Utilities.php:323-390 | the field-by-field `isset` copy computes the upgrade |
| Records.DataKeyInjective | classes/Audits/Internal/Utilities.php:430-433 | two audits never share a data key |
| Records.UrlStatusKeyInjective | classes/Audits/Internal/Utilities.php:498-501 | the status cache key determines both the audit and the URL |
| Engine.AddedAllKeepsIdsUnique | classes/Audits/Internal/Utilities.php:222-225 | adding tasks with `ignoreIfExists` only appends, keeps task ids unique, and leaves each added id queued |
| Engine.AddedAllWithoutIds | classes/Audits/Internal/Utilities.php:133 | tasks without an id are all appended, in order |
| Engine.Utilities.GetData | classes/Audits/Internal/Utilities.php:313-396 | returns the cached record, or else the stored record upgraded (none when absent), and caches it; what `getData` returns for every audit, the store, status cache, queue and trace do not change |
| Engine.Utilities.NewUnitOfWork | classes/Audits/Internal/Utilities.php:25 | a new process starts with an empty `$cache`, so every audit reads as the store holds it, upgraded; the store, status cache and queue persist |
| Engine.Utilities.SetData | classes/Audits/Internal/Utilities.php:404-409 | the store and the cache hold the record under its key, a later `getData` returns it, and no other audit changes |
| Engine.Utilities.DeleteData | classes/Audits/Internal/Utilities.php:416-423 | the key is removed and the cache entry dropped, a later `getData` returns none, and no other audit changes |
| Engine.Utilities.SetURLStatus | classes/Audits/Internal/Utilities.php:470-474 | the status cache maps the key of (audit, URL) to (status, date) and nothing else changes |
| Engine.Utilities.AddTasks | classes/Audits/Internal/Utilities.php:133 | one `addMultiple` call adds the tasks to the queue |
| Engine.Utilities.AddTask | classes/Audits/Internal/Utilities.php:222-225 | one `add` call, skipped when a task with the same id is queued |
| Engine.Utilities.AddEach | classes/Audits/Internal/Utilities.php:222-225 | one `add` call per missed link, in order |
| Engine.Utilities.InitializeAudit | classes/Audits/Internal/Utilities.php:32-135 | nothing is written without a record, and a null base URL or an empty 200 sitemap body stops the task after the robots.txt and sitemap requests; in these cases the audit reads as before. Otherwise the initialized record is saved, and its check-page tasks are queued only after the save and only when there are any |
| Engine.Utilities.SaveInitialized | classes/Audits/Internal/Utilities.php:131-134 | saves the record, then adds the tasks when there are any; other audits read as before |
| Engine.Utilities.CheckPage | classes/Audits/Internal/Utilities.php:143-236 | nothing changes without the record or the page, and the audit reads as before. Otherwise, in order: the page request, its status cached, one check-link task per cache miss, and the record saved with the checked page |
| Engine.Utilities.SavePageCheck | classes/Audits/Internal/Utilities.php:153-234 | caches the page's status, adds the check-link tasks, then saves the record; other audits read as before |
| Engine.Utilities.UpdateLinkData | classes/Audits/Internal/Utilities.php:284-306 | returns the patched record and updates the status cache as the update function defines, and requests only on a miss |
| Engine.Utilities.CheckLink | classes/Audits/Internal/Utilities.php:267-275 | the links with this short URL are settled and the record saved; the queue does not change, other audits read as before, and without the record or a base URL nothing is written and the audit reads as before |
| Engine.Utilities.CheckPageLink | classes/Audits/Internal/Utilities.php:245-259 | nothing is written when the page or link is missing or the link already has a status. Otherwise it acts as `checkLink` for the link's short URL. Other audits always read as before |
| Progress.StatusedLinks | classes/Audits.php:114-120 | the number of links with a status never exceeds the number of links |
| Progress.TimesIsProduct | classes/Audits.php:116 | adding the link share once per link with a status gives the count times the share |
| Progress.TallyLinksCounts | classes/Audits.php:114-120 | the inner loop adds the share once per link with a status, and keeps the flag exactly when every link has a status |
| Progress.TallyPageCredit | classes/Audits.php:105-127 | one outer pass adds the page's credit and keeps the flag exactly when the page is done |
| Progress.TallyPagesIsCredit | classes/Audits.php:101-128 | the loops compute the sum of the page credits, and "all pages done" exactly when every page is done |
| Progress.PageCreditNonNegative | classes/Audits.php:109-124 | a page earns between nothing and its weight |
| Progress.CreditNonNegative | classes/Audits.php:102-128 | the total credit is between 0 and N times the page weight |
| Progress.RunningPercentInRange | classes/Audits.php:133-134 | a `RUNNING` percent is an integer in 0..99 |
| Progress.DoneIffAllPagesDone | classes/Audits.php:100-131 | with non-empty pages and no errors, the status is `DONE` if and only if every page has a status and every link of every page has one |
| Progress.StatusCases | classes/Audits.php:88-103 | a missing record is `NOTFOUND`. Non-empty errors give `ERRORS` with those errors and the request date. Null pages give `RUNNING` 0. An empty pages array reaches the division by zero |
| Progress.StatusWithoutLinks | classes/Audits.php:106-127 | a page with a status but no `links` key counts as done and earns no credit |
| Progress.StatusedLinksMonotone | classes/Audits.php:114-120 | setting more link statuses never lowers the count of links with a status |
| Progress.PageCreditMonotone | classes/Audits.php:109-124 | setting one more link status never lowers a page's credit |
| Progress.CreditMonotone | classes/Audits.php:102-128 | setting more link statuses, on any pages, never lowers the total credit |
| Progress.ShortKeyRecordsReadAsRunning | classes/Audits.php:92-99 | a record holding only short keys reads as `RUNNING` 0 with a null request date |
| Progress.UpgradedReadsAsRunning | classes/Audits.php:88-99 | every record `getData` has upgraded reads as `RUNNING` 0 with a null request date |
| Progress.ErrorsLostOnUpgrade | classes/Audits.php:92-96 | a long-key record with one error reads as `ERRORS`, and the same record once upgraded reads as `RUNNING` 0 |
| Progress.CorrectedStatusSurvivesUpgrade | classes/Audits.php:88-139 | with the short keys read back, a stored record reports the same status after the upgrade as before it |
| Progress.CorrectedStatusReportsEngineErrors | classes/Audits/Internal/Utilities.php:57-60 | with the short keys read back, an error message the engine stored under `e` is reported as `ERRORS` |
| Progress.TallyLinksLoop | classes/Audits.php:114-120 | the inner `foreach` computes the links tally |
| Progress.TallyPagesLoop | classes/Audits.php:101-128 | the nested `foreach` loops compute `$percent` and `$allPagesAreDone` as the tally defines them |
| Progress.StatusLoop | classes/Audits.php:86-138 | `getStatus` given what `getData` returned is the status function, including the division by zero |
| Results.LinksRoundTrip | classes/Audits.php:161-171 | every link's id, URL, status and date can be read back from the link entries, in order |
| Results.PageRoundTrip | classes/Audits.php:172-182 | every long-key page field, its links included, can be read back from its entry; `links` is null exactly when the page has no links |
| Results.PagesRoundTrip | classes/Audits.php:159-183 | the pages can be read back, in order, from the entries |
| Results.ResultsLossless | classes/Audits.php:147-186 | a missing record gives the id, a null date, no pages, null `allowSearchEngines` and no `maxPagesCount` key. A found record gives its date, its search-engine flag, its cap (null when unset) and all its pages |
| Results.ShortKeyRecordsShowNothing | classes/Audits.php:155-185 | a record holding only short keys shows no pages, no date and no cap |
| Results.LinkResultsLoop | classes/Audits.php:163-170 | the link loop lists every link entry in order |
| Results.PageResultsLoop | classes/Audits.php:159-183 | the page loop lists every page entry in order |
| Results.ResultsLoop | classes/Audits.php:147-187 | `getResults` given what `getData` returned is the results function |
| AuditsFacade.RequestedIsRunning | classes/Audits.php:54-61 | a new record reads as `RUNNING` 0 with its date and shows no pages. Read back in a later process and upgraded, it still reads as `RUNNING` 0, with its id, URL, empty errors and cap kept under short keys |
| AuditsFacade.RobotsFailureReadsAsRunning | classes/Audits/Internal/Utilities.php:89-90 | when robots.txt cannot be read, the initialized record holds the problem message under `e`. `getStatus` reads it as `RUNNING` 0 with no date, while the corrected reading reports that message as `ERRORS` |
| AuditsFacade.EmptySitemapCorrectedDivides | classes/Audits.php:100-103 | a sitemap listing no URL gives an initialized record with an empty `p` and no `e`: as written it reads `RUNNING` 0, and the corrected reading reaches the division by zero |
| AuditsFacade.Audits.Request | classes/Audits.php:50-65 | the id is the hash of the unique value. The record has null pages, empty errors, null `allowSearchEngines`, the request date and the cap. It is stored before the initialize task is queued, and nothing else changes |
| AuditsFacade.RequestThenInitialize | classes/Audits.php:50-65 | `request`, then its initialize task in a new process: the task reads the stored record upgraded, whose `u` is the home URL, and saves the initialized record; the queue holds the initialize task and then the check-page tasks. When the sitemap answers 200 with an empty body, nothing is saved: the audit keeps the record `request` stored, and only the initialize task is queued |
| AuditsFacade.Audits.Delete | classes/Audits.php:73-76 | the record is removed and later reads are none; other audits, the status cache and the queue stay |
| AuditsFacade.Audits.GetStatus | classes/Audits.php:84-139 | the result is the status function of what `getData` held; nothing observable changes |
| AuditsFacade.Audits.GetResults | classes/Audits.php:147-187 | the result is the results function of what `getData` held; nothing observable changes |

## Left out

- `makeRequest` (cURL, timeouts, gzip, redirects) is not modelled. Responses come from the `World` value: GET status and content, and the HEAD status for links.
- HTML and XML parsing is not modelled. The parsed head values, body text, anchors and `url`/`loc` elements come from the `World` parsers. Script removal, `strip_tags`, `htmlspecialchars_decode` and the `&nbsp;` replacement are taken as done by the parser. An XML parse failure is a `Malformed` result. A 200 sitemap with an empty body is not parsed: in PHP 8 `loadXML('')` throws a `ValueError`, which is an `\Error` and escapes `catch (\Exception)`, so the task ends with nothing saved.
- `json_encode`/`json_decode` are not modelled: records and cache entries are stored as values.
- `md5` is an abstract injective function whose output holds no `-`. Only the lemmas that need these facts require them.
- `date('c')`, `time()`, `uniqid()` and the home URL from `$app->urls` are parameters.
- The framework's data store, cache and task queue are maps and a list. Task execution, delays, retries and concurrency between tasks (lost updates) are not modelled.
- `getList` and index.php (add-on registration and task wiring) are not modelled. Neither are the tests, which only check that the shortcut exists.
- Progress.StatusOf: `getStatus` uses exact reals in place of PHP floats, so float rounding in the percent is not modelled.
- Progress.StatusOf: `100 / 0` on an empty pages array is the `DivisionByZeroError` outcome (PHP 8). PHP 7's warning and `false` are not modelled. As written, the facade never reaches this case on records the code writes. The corrected reading does, on the record of a sitemap that lists no URL (`AuditsFacade.EmptySitemapCorrectedDivides`).
- Results.ResultsOf: a `foreach` over null long-key `pages` iterates nothing. PHP also raises a warning, which the framework might turn into an exception; that is not modelled.
- Engine.Utilities.InitializeAudit: a null base URL is modelled as a `TypeError` after the robots.txt and sitemap requests, so nothing is saved. This happens when the task runs in the same process as `request`. `setData` caches the long-key record that `request` writes, and `getData` returns it before any upgrade, so the record has no `u`. A task in a new process (`Engine.Utilities.NewUnitOfWork`) reads the stored record upgraded, which has `u`; `AuditsFacade.RequestThenInitialize` runs that sequence to the initialized record.
- Engine.Utilities.CheckPageLink: a null link URL is treated as the `TypeError` it raises, with nothing written.
- PHP strings are bytes, the model uses `seq<char>`. The string operations used (`strlen`, `substr`, `trim`, `strtolower`) act on ASCII alone, so they behave the same on both.
- Reading an undefined array key gives null plus an E_WARNING ("Undefined array key") in PHP 8. The model reads it as `None` and does not model the notice.
- Progress.CorrectedStatusOf: a plain-text error stored under `e` by the engine is read back as a one-element error list.

## Findings

| source | as written | input that shows it | evidently intended | confidence | as-written member | corrected member |
|---|---|---|---|---|---|---|
| classes/Audits.php:88-98 | `getStatus` and `getResults` read the long keys `errors`, `pages` and `dateRequested`. `getData` upgrades every stored record holding `id` to short keys, and the engine then writes only `e`, `p` and `s` | an audit whose robots.txt answers 404: `initializeAudit` stores "There is a problem with …robots.txt (status:404)" under `e`, and `getStatus` then reports `RUNNING` 0 for ever | the facade reads the record's short keys, so the engine's error is reported as `ERRORS` and dates and progress survive the upgrade | high, not executed | AuditsFacade.RobotsFailureReadsAsRunning | Progress.CorrectedStatusReportsEngineErrors |

`AuditsFacade.Audits.GetStatus` keeps the code's behaviour, `Progress.StatusOf`. `Progress.CorrectedStatusOf` is the reading that the `ERRORS` branch of `getStatus` (classes/Audits.php:93-95) exists for, since the engine reports failures under `e` (classes/Audits/Internal/Utilities.php:58-60, 89-90).
The corrected reading still needs a guard for an empty pages array. A sitemap that lists no URL gives an engine record with an empty `p` and no `e`, and on that record it divides by zero at classes/Audits.php:103 (`AuditsFacade.EmptySitemapCorrectedDivides`).
