# Custom-category query endpoint and paged browse page, in Dafny

This project models two pieces of the DmTV media browser.

- **`GET /api/custom`** (module `CustomRoute`, `custom_route.dfy`). The handler rejects a caller without a session or without a username. It answers an absent or empty `query` with an empty, cacheable list. A `query` that equals a resource site's `key` calls the first site with that key, with an empty term. Any other `query` is searched on every site, and each site's items are merged in site order. A site whose call fails or times out adds nothing. Items whose `type_name` contains a blocked word are then dropped, unless the site configuration disables that filter. An empty result is a bare 200. A non-empty result carries cache headers built from the configured cache time. The handler is a pure function. Every call into a site is represented by the outcome it settles with, given by a `search` parameter. The function returns the response together with the list of calls it made, so "no site is called" and "exactly one call" can be stated.
- **The browse page's list state** (module `DoubanPage`, `douban_page.dfy`). The class `BrowsePage` holds the loaded items, the page number, `hasMore`, `loading`, the category type and the three selections. `loadInitialData` is asynchronous, so it is split at its `await`. `StartLoad` sets `loading` and builds the request from the current state. `FinishLoad` commits the settled outcome. The selection handlers, the selection-change effect and the intersection callback are methods on the same object, and they may run between the two halves. The code does not compare the selections at completion with those at dispatch, so a late response is committed anyway. `LateResponseIsCommitted` exhibits this.
- `Common` (`common.dfy`) holds `Option`, `FindFirst` (`Array.prototype.find`, returning an index) and the subsequence relation.

Facts about the code that the model keeps:
- The code has no stale-response guard, so a late response is committed (`LateResponseIsCommitted`).
- Pages are numbered from 1, and a reset load moves to page 2.
- The selection handlers do not touch `hasMore`.
- Each fan-out call's `.catch` turns a failure into `[]`, so every settled promise is fulfilled.
- The load-more callback is installed by an effect whose dependencies leave out `page`. It asks for the page number it captured when it was installed (`observedPage`), which can differ from the live one (`ReselectKeepsCapturedPage`).
- JavaScript truthiness is written out. `undefined`, `null` and `''` are falsy strings (`Truthy`), and an array is truthy even when empty.

## Model

| member | source | states |
|---|---|---|
| Common.FindFirst | src/app/api/custom/route.ts:38 | the index returned satisfies the predicate and no earlier element does; none is returned exactly when no element satisfies it |
| CustomRoute.FindSite | src/app/api/custom/route.ts:38 | the first site whose `key` equals the query, or none exactly when no site has that key |
| CustomRoute.Authorized | src/app/api/custom/route.ts:13 | defines the negation of the 401 test: a session exists and its username is truthy (`Truthy`: present and non-empty). The promise that uses it is stated by `Get`'s status clause (401 exactly when it is false) and its no-call and no-header clauses for that case |
| CustomRoute.NoQuery | src/app/api/custom/route.ts:19 | defines `!query`: the parameter is missing or empty. The promise that uses it is stated by `Get`'s clause that such a request gets an empty 200 list carrying `CacheHeadersFor(cacheTime)` and calls no site |
| CustomRoute.OrEmpty | src/app/api/custom/route.ts:71 | the fallback to `''` gives the string itself when it is truthy, and `''` exactly when the string is missing or empty |
| CustomRoute.TypeNameOf | src/app/api/custom/route.ts:71 | an item's label is its `type_name` when that is truthy, else `''` |
| CustomRoute.Blocked | src/app/api/custom/route.ts:72 | `yellowWords.some(...)`, tried word by word, holds exactly when some blocked word occurs in the label |
| CustomRoute.Passes | src/app/api/custom/route.ts:70-73 | an item is kept exactly when no blocked word occurs in its label; an item without a label is kept exactly when `''` is not a blocked word |
| CustomRoute.Includes | src/app/api/custom/route.ts:72 | `includes` holds exactly when the word occurs in the label at some position (so the empty word is in every label) |
| CustomRoute.FilterBlocked | src/app/api/custom/route.ts:69-74 | the filtered list is a subsequence of the input; every kept item contains no blocked word; every input item containing none is kept |
| CustomRoute.FilterKeepsPassingItems | src/app/api/custom/route.ts:70-73 | a list whose items all pass is returned unchanged |
| CustomRoute.FilterIdempotent | src/app/api/custom/route.ts:69-74 | filtering twice equals filtering once |
| CustomRoute.FilterNoWords | src/app/api/custom/route.ts:69-74 | an empty blocklist keeps every item |
| CustomRoute.FilterAppend | src/app/api/custom/route.ts:70-73 | the filter distributes over concatenation, so it keeps relative order |
| CustomRoute.EmptyWordBlocksAll | src/app/api/custom/route.ts:71-72 | a blocklist containing the empty word removes every item |
| CustomRoute.ItemsOf | src/app/api/custom/route.ts:55-58 | defines what one settled call contributes: its items when it succeeded, `[]` when it failed or timed out. The promises that use it are stated by `Flatten` (the merged length counts successful calls only), `FlattenMembership`, `FlattenSourceOrder` and `KeyQueryCallsOnlyThatSite` |
| CustomRoute.Flatten | src/app/api/custom/route.ts:61-65 | the merged list's length is the sum of the successful sites' list lengths |
| CustomRoute.FlattenAppend | src/app/api/custom/route.ts:62-65 | merging distributes over concatenation of the outcome lists |
| CustomRoute.FlattenSourceOrder | src/app/api/custom/route.ts:49-65 | the i-th site's items appear unchanged and contiguous right after the items of all earlier sites, whatever the arrival order |
| CustomRoute.FlattenMembership | src/app/api/custom/route.ts:62-65 | an item is in the merged list exactly when some site's successful outcome holds it |
| CustomRoute.FanOut | src/app/api/custom/route.ts:49-59 | defines the list of outcomes of calling every site with the query, in site order. The promise that uses it is stated by `FreeTextQueryCallsEverySite` (one call per site, in order) and by `TimedOutSourceIsSkipped` |
| CustomRoute.Gather | src/app/api/custom/route.ts:38-66 | every call is to a configured site, with the empty term or the query; every gathered item comes from the outcome of a call that was made |
| CustomRoute.CacheHeadersFor | src/app/api/custom/route.ts:85-90 | defines the cache headers: `max-age`, `s-maxage`, the CDN and Vercel CDN `s-maxage` all set to the cache time, and `Netlify-Vary: query`. The promise that uses it is stated by `Get`'s header clauses: headers exactly when the result is non-empty, carrying the configured cache time |
| CustomRoute.ApplyFilter | src/app/api/custom/route.ts:69-74 | the result is a subsequence of the merged list; it is the list itself when the filter is disabled or there are no blocked words; with the filter on it is the filtered list and every item in it passes |
| CustomRoute.Get | src/app/api/custom/route.ts:11-93 | 401 with an `Unauthorized` error and no call exactly when there is no session or no username; otherwise 200 with a results body; no query gives `[]` with cache headers and no call; otherwise headers are present exactly when results are non-empty, and they carry the cache time as max-age and s-maxage; with the filter on, every returned item passes it |
| CustomRoute.KeyQueryCallsOnlyThatSite | src/app/api/custom/route.ts:38-46 | a query equal to a site key makes exactly one call, to the first site with that key, with term `""`; its items are the pre-filter results; if the call fails, the response is a bare empty 200 |
| CustomRoute.FreeTextQueryCallsEverySite | src/app/api/custom/route.ts:47-66 | a query naming no site calls every site with the query, in site order; the merged list is the concatenation of the outcomes, and its length is the sum of the successful lengths |
| CustomRoute.UnfilteredPassThrough | src/app/api/custom/route.ts:69-92 | with the filter disabled or no blocked words, the merged list is returned unchanged: empty gives a bare 200, non-empty gives the list with cache headers |
| CustomRoute.FilteredResults | src/app/api/custom/route.ts:69-74 | with the filter on, the response lists the filtered merged items, a subsequence of them, and re-filtering changes nothing |
| CustomRoute.TimedOutSourceIsSkipped | src/app/api/custom/route.ts:49-65 | sites A→[x,y], B timing out and C→[z] merge to [x,y,z] |
| DoubanPage.Received | src/app/douban/page.tsx:44 | defines `res?.items || []`: the response's items when present (an empty list stays empty), `[]` when they are missing. A thrown fetch never evaluates it (the catch at page.tsx:64); `Received(Threw)` is `[]` only for totality. The promises that use it are stated by `FinishLoad` (replace or append, page moves, `hasMore` iff the received list is non-empty; a throw only clears `loading`) and `Load` |
| DoubanPage.FindCategory | src/app/douban/page.tsx:84 | the first custom category whose name equals the selection, or none exactly when no category has that name |
| DoubanPage.BrowsePage.constructor | src/app/douban/page.tsx:14-25 | the initial state: no items, page 1, `hasMore` true, not loading, type movie, empty selections; the observer installed on mount holds page 1 |
| DoubanPage.BrowsePage.SetType | src/app/douban/page.tsx:19 | the category type becomes the one chosen |
| DoubanPage.BrowsePage.StartLoad | src/app/douban/page.tsx:31-55 | sets `loading`; requests page 1 on reset, else the page held by the calling closure; uses the custom category's `query` as `apiUrl` in custom mode with a category, else the type and the three selections |
| DoubanPage.BrowsePage.FinishLoad | src/app/douban/page.tsx:56-68 | reset: the list becomes exactly the received items and the page becomes 2; otherwise the items are appended and the page advances by 1; `hasMore` becomes "the page was non-empty"; a thrown fetch leaves the list, page and `hasMore` unchanged; `loading` ends false in every case |
| DoubanPage.BrowsePage.Load | src/app/douban/page.tsx:31-69 | a load from the current render with nothing in between: the request's page (at least 1), the new list, the new page and `hasMore` in terms of the old state and the outcome |
| DoubanPage.BrowsePage.OnSelectionChange | src/app/douban/page.tsx:82-91 | outside custom mode, a reset load of the current selections; in custom mode, a reset load from the first category named by the primary selection, and no load when none is |
| DoubanPage.BrowsePage.InstallObserver | src/app/douban/page.tsx:94-119 | the observer effect installs a callback that captures the current page number |
| DoubanPage.BrowsePage.OnIntersect | src/app/douban/page.tsx:99-109 | a load-more is issued only when the sentinel is visible, `hasMore` holds and no load is in flight; it requests the page captured when the observer was installed (at least 1), from the matching custom category in custom mode |
| DoubanPage.BrowsePage.HandlePrimaryChange | src/app/douban/page.tsx:121-126 | sets the primary selection, clears the secondary selection, page 1, empty list; `hasMore`, `loading`, the type and the weekday are outside its frame |
| DoubanPage.BrowsePage.HandleSecondaryChange | src/app/douban/page.tsx:128-132 | sets the secondary selection, page 1, empty list; nothing else is in its frame |
| DoubanPage.BrowsePage.HandleWeekdayChange | src/app/douban/page.tsx:134-138 | sets the weekday, page 1, empty list; nothing else is in its frame |
| DoubanPage.LateResponseIsCommitted | src/app/douban/page.tsx:31-69 | a response requested for selection A and settling after the user switched to B still replaces the list |
| DoubanPage.BrowsePage.Step | src/app/douban/page.tsx:82-138 | only the two effects and the sentinel issue loads; a load-more needs `hasMore`; `hasMore` becomes true only when a load settles with items |
| DoubanPage.StaysExhausted | src/app/douban/page.tsx:63-100 | once `hasMore` is false, no sequence of events in which no load settles with items issues a load-more, and `hasMore` stays false |
| DoubanPage.ReselectKeepsCapturedPage | src/app/douban/page.tsx:94-126 | after re-choosing the selected category, the list is emptied and the page reset, but the next load-more asks for the page captured earlier and the page then becomes 2 |

## Left out

- Session parsing, configuration loading, the site registry, the cache-time lookup and the blocked-word list are outside the model. Their results are parameters (`auth`, `Env`).
- Calls to sites are not executed. `search` gives each call's settled outcome, and a thrown error or a lost race against the 20-second timer is `Failed`. Completion times, the timer itself and the timeout bound are not modelled. `search` is a function, so two calls with the same site and term get the same outcome.
- `.flat()` is modelled on a list of item lists only. A site that returns something other than an array is not modelled.
- Header strings are not formatted. `CacheHeaders` records the values the four headers carry.
- `includes` is modelled on Dafny characters, not UTF-16 code units.
- Logging (`console.warn`, `console.error`) is not modelled.
- The call made when the query is a site key (route.ts:43) has no 20-second timer. A site that never settles hangs that request. The model's `search` always settles, so this hang is not modelled.
- `fetchFromApi` is not executed. Its outcome is the parameter of `FinishLoad`, and `FinishLoad` takes the same `reset` flag as the `StartLoad` it completes.
- React rendering, the JSX, the `IntersectionObserver` setup and teardown, and effect scheduling are not modelled. Each effect is a method (`OnSelectionChange`, `InstallObserver`) or an `Event` the caller invokes when React would run it. The load-more callback (page.tsx:102) captures the page number and `customCategories`, and the selection effect (page.tsx:84) also reads `customCategories`; neither dependency list (page.tsx:119, page.tsx:91) names `customCategories`, which the model holds fixed (see the `RUNTIME_CONFIG` line). The callback's other inputs are in its dependency list, so the model reads their live values, which assumes the caller reinstalls the observer whenever one of those dependencies changes.
- Reading `window.RUNTIME_CONFIG` is not modelled. The custom categories are a constructor parameter, fixed for the object's lifetime.
