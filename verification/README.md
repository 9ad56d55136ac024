# MarketLens proxy core in Dafny

MarketLens is a market-data dashboard. Its server routes proxy third-party
quote, macro-data and news providers, and two of them sit behind a
process-wide read-through cache. This project models the decision logic and
list transformations behind those pages, and proves their properties:

- `Cache` (`src/utils/cache.ts`): the TTL cache. A selector uses the remote
  store until its first error, then switches to an in-process map for good.
  Expiry is lazy and strict: an entry is served only while `expires > now`.
  The clock is the argument `now`. Whether a remote call fails is the argument
  `fails`. The client's asynchronous error event is the `ErrorEvent` operation.
- `Watchlist` (`src/utils/watchlist.ts`): add-if-absent, remove-all and
  membership over a symbol list in browser storage. Outside the browser there
  is no storage.
- `NewsRoute` (`src/app/api/news/route.ts`): the precedence tree that maps
  theme, category and `q` to one of two provider endpoints. It also holds the
  parameter defaults, the key check, and how the provider's answer is
  forwarded. The provider URL is a rendering (`Url`) of the decision datatype.
- `SearchRoute` (`src/app/api/stocks/search/route.ts`): validate, then build
  a case-insensitive cache key, then serve a hit. On a miss, fetch, normalise,
  and cache only non-empty results.
- `MacroRoute` (`src/app/api/macro/route.ts`): the indicator table, the cache
  flow, 404 on no observations, the live value, and the parseable history.
- `NewsPage` (`src/app/news/page.tsx`): the pagination state only. This is
  the page count, the clamped Previous/Next handlers, the reset on a theme
  change, and when the controls show.
- `Proxy`, `Http`, `Wrappers`: the shared cached payloads, the response
  shape, JavaScript truthiness of optional strings, and `Option`.

The provider calls are oracles. The search provider is a function from the
keywords to a reply. The macro provider is a function from a series id to a
reply. The news reply is an argument. `parseFloat` is a parameter
`parse: string -> Option<real>`, where `None` stands for `NaN`. JSON encoding
is taken to round-trip.

## Model

| member | source | states |
|---|---|---|
| Cache.Init | src/utils/cache.ts:4-12 | the remote store is selected iff a connection string is set, non-empty and not the placeholder; the in-process map starts empty |
| Cache.Lookup | src/utils/cache.ts:28-32 | a store answers a key iff the key is present and its expiry is strictly after `now`, and then with the stored value |
| Cache.Get | src/utils/cache.ts:17-34 | a read never changes either store; a failing remote read answers absent and disables the remote store for good; otherwise the selected store answers with only fresh entries |
| Cache.Set | src/utils/cache.ts:36-47 | in memory mode the key gets the value with expiry `now + ttl`, replacing the old entry; a remote write leaves memory untouched; a failing one is dropped and disables the remote store |
| Cache.OnError | src/utils/cache.ts:8-11 | the client's error event disables the remote store and changes no stored entry |
| Cache.Step | src/utils/cache.ts:17-47 | no single operation turns the remote store back on |
| Cache.MemoryRoundTrip | src/utils/cache.ts:45 | in memory mode, a value written at `t` with `ttl` is read back at every `t'` with `t <= t' < t + ttl` |
| Cache.MemoryExpiry | src/utils/cache.ts:28-32 | in memory mode, the entry reads as absent from `t + ttl` on, though it is never deleted |
| Cache.MemoryNeverSet | src/utils/cache.ts:28-32 | a key never written reads as absent |
| Cache.MemoryOverwrite | src/utils/cache.ts:45 | a second write replaces the first: the entry is the second value with the second expiry |
| Cache.SetFrame | src/utils/cache.ts:45 | a write to one key leaves what every other key reads unchanged, unless the write itself switches backend |
| Cache.RemoteRoundTrip | src/utils/cache.ts:18-21 | while the remote store keeps working, a written value is read back before it expires |
| Cache.RemoteReadFailureDowngrades | src/utils/cache.ts:22-25 | a failing remote read answers absent, disables the remote store and leaves memory as it was |
| Cache.RemoteWriteFailureDropsWrite | src/utils/cache.ts:40-43 | a failing remote write stores nothing anywhere, and later reads come from the in-process map |
| Cache.DowngradeIsPermanent | src/utils/cache.ts:4-12 | once the selector is cleared, no sequence of operations re-enables the remote store |
| Cache.DowngradedIgnoresRemote | src/utils/cache.ts:37-45 | after a downgrade, a run and every value it reads are the same whatever each remote call's outcome and whatever the remote store holds |
| Cache.MemoryUntouchedWhileRemote | src/utils/cache.ts:37-45 | while the remote store stays enabled, the in-process map is never written |
| Cache.ReadsAreLazy | src/utils/cache.ts:27-33 | any run of reads and error events leaves both stores' contents exactly as they were |
| Cache.FailureThenRoundTrip | src/utils/cache.ts:40-45 | after one remote failure, a write then a read round-trips through memory even if every later remote call fails |
| Cache.QuoteExample | src/utils/cache.ts:29-45 | an entry set like the quote route's (key `stock_quote_AAPL`, five minutes; that route is not otherwise part of this model) is served at once and is absent 300001 ms later |
| Watchlist.Current | src/utils/watchlist.ts:9-15 | outside the browser, or with nothing stored, the watchlist is empty; otherwise it is the stored list |
| Watchlist.Save | src/utils/watchlist.ts:21-25 | in the browser the next read returns the saved list; outside it, storage is unchanged |
| Watchlist.RemoveAll | src/utils/watchlist.ts:49 | the result has no occurrence of the symbol, is an order-preserving selection of the input, and keeps every other symbol as often as the input has it |
| Watchlist.RemoveAllIsUnique | src/utils/watchlist.ts:49 | those three facts determine the filtered list completely |
| Watchlist.RemoveAllKeepsNoDuplicates | src/utils/watchlist.ts:49 | filtering a duplicate-free list gives a duplicate-free list |
| Watchlist.RemoveAbsent | src/utils/watchlist.ts:49 | removing a symbol that is not there leaves the list unchanged |
| Watchlist.Add | src/utils/watchlist.ts:32-40 | an absent symbol is appended at the end and the list is persisted; a present one changes nothing and writes nothing; the symbol is then in the list, and duplicate-freedom is kept |
| Watchlist.Remove | src/utils/watchlist.ts:47-51 | every occurrence is removed, the others keep their order and counts, and the result is persisted |
| Watchlist.SaveThenRead | src/utils/watchlist.ts:21-25 | storage round-trips the saved list in the browser |
| Watchlist.AddIdempotent | src/utils/watchlist.ts:34-39 | adding twice gives the same list and storage as adding once |
| Watchlist.RemoveIdempotent | src/utils/watchlist.ts:47-51 | removing twice gives the same list and storage as removing once |
| Watchlist.AddThenContains | src/utils/watchlist.ts:59-61 | in the browser, membership holds right after an add |
| Watchlist.RemoveThenNotContains | src/utils/watchlist.ts:59-61 | membership fails right after a remove, in or out of the browser |
| Watchlist.NoDuplicatesPreserved | src/utils/watchlist.ts:32-51 | add and remove keep the stored list free of duplicates |
| Watchlist.OutsideBrowserNothingStored | src/utils/watchlist.ts:21-25 | outside the browser storage never changes; add still returns `[symbol]` and remove returns `[]` |
| NewsRoute.ThemeEndpoint | src/app/api/news/route.ts:23-45 | business/technology go to top-headlines with that category; political/geopolitical/economics go to everything with politics/geopolitics/economics; any other theme gets general headlines |
| NewsRoute.Decide | src/app/api/news/route.ts:11-55 | a missing or empty API key refuses; otherwise the chosen endpoint, language en, and page 1, page size 10 and sort popularity unless given non-empty |
| NewsRoute.Handle | src/app/api/news/route.ts:15-70 | no key gives 500 whatever the provider does; provider data is forwarded with 200; a non-OK status is passed through with an error body; an exception gives 500 |
| NewsRoute.MissingKeyRefusesFirst | src/app/api/news/route.ts:15-17 | with no key no endpoint is chosen and the answer is 500 |
| NewsRoute.ThemeTakesPrecedence | src/app/api/news/route.ts:23-45 | with a non-empty theme, changing category or `q` changes nothing |
| NewsRoute.EmptyThemeIsAbsent | src/app/api/news/route.ts:23 | an empty theme decides exactly as no theme |
| NewsRoute.NoThemeFallbacks | src/app/api/news/route.ts:46-55 | without a theme, a non-general category wins, then a non-empty `q`, else the general headlines |
| NewsRoute.EverythingOnlyFromThemeOrQuery | src/app/api/news/route.ts:23-55 | a search-term request comes from a theme or from `q` verbatim, never from a category |
| NewsRoute.ThemeEndpointNonEmpty | src/app/api/news/route.ts:25-44 | no theme yields an empty category or search term |
| NewsRoute.UrlNamesEndpoint | src/app/api/news/route.ts:28-54 | the rendered URL starts with the chosen endpoint's path and not with the other's |
| SearchRoute.Lower | src/app/api/stocks/search/route.ts:39 | lower-casing keeps the length and maps each character on its own |
| SearchRoute.Normalize | src/app/api/stocks/search/route.ts:21-27 | same length and order; symbol is kept, description becomes name, type is kept |
| SearchRoute.NormalizeAppend | src/app/api/stocks/search/route.ts:21-27 | normalising a concatenation normalises each part |
| SearchRoute.KeyIgnoresCase | src/app/api/stocks/search/route.ts:39 | two searches share a cache key iff their keywords are equal up to letter case |
| SearchRoute.Search | src/app/api/stocks/search/route.ts:29-83 | missing keywords: 400 and the cache untouched; a hit is returned as is; on a miss, no API key or a provider exception gives 500 with no write, and a non-empty `result` is answered and cached as exactly its normalisation under the search key for one hour; no other path writes |
| SearchRoute.MissingKeywordsTouchNothing | src/app/api/stocks/search/route.ts:33-37 | missing or empty keywords give 400 with no cache access |
| SearchRoute.CacheHitSkipsProvider | src/app/api/stocks/search/route.ts:42-52 | on a hit, neither the API key nor the provider affects the outcome |
| SearchRoute.EmptyResultsNotCached | src/app/api/stocks/search/route.ts:62-71 | an empty body, or a missing or empty `result`, returns `[]` and writes nothing |
| SearchRoute.ProviderErrorPassedThrough | src/app/api/stocks/search/route.ts:57-60 | a provider error status is returned with an error body and nothing is cached |
| SearchRoute.SearchIsReadThrough | src/app/api/stocks/search/route.ts:39-78 | in memory mode, a later search differing only in case within the hour gets the same answer, whatever the provider or key then |
| MacroRoute.ParseIndicator | src/app/api/macro/route.ts:53-55 | exactly the four declared names are accepted, each naming its own indicator |
| MacroRoute.NameRoundTrip | src/app/api/macro/route.ts:9-30 | each indicator's name parses back to it, and nothing else does |
| MacroRoute.ConfigTable | src/app/api/macro/route.ts:9-30 | CPI is CPIAUCSL with no unit, GDP is GDPC1 with B, FEDERAL_FUNDS_RATE is FEDFUNDS with %, UNEMPLOYMENT is UNRATE with %; the series ids are distinct |
| MacroRoute.KeysDistinct | src/app/api/macro/route.ts:57 | distinct indicators have distinct cache keys |
| MacroRoute.KeysDisjointFromSearch | src/app/api/macro/route.ts:57 | no macro key equals any search key, so the two routes never read each other's entries |
| MacroRoute.Historical | src/app/api/macro/route.ts:77-85 | the history has at most as many points as observations; every parseable observation appears with its date; every point comes from such an observation |
| MacroRoute.HistoricalAppend | src/app/api/macro/route.ts:77-85 | the history of a concatenation is the concatenation of the histories, so order is kept |
| MacroRoute.HistoricalAllParse | src/app/api/macro/route.ts:77-85 | when all observations parse, point i is observation i with its parsed value |
| MacroRoute.HistoricalNoneParse | src/app/api/macro/route.ts:77-85 | when none parse, the history is empty |
| MacroRoute.Shape | src/app/api/macro/route.ts:87-94 | the live value is the first observation's date, parsed value and the configured unit; the history is the parseable list |
| MacroRoute.Macro | src/app/api/macro/route.ts:51-105 | invalid indicator: 400 with no cache access; a hit is returned as is; only a 200 writes the cache, under the indicator's key for 24 hours, with the body returned |
| MacroRoute.CacheHitSkipsProvider | src/app/api/macro/route.ts:57-62 | on a hit, neither the API key nor the provider affects the outcome |
| MacroRoute.NoObservationsIsNotFound | src/app/api/macro/route.ts:68-70 | missing or empty observations give 404 and nothing is cached |
| MacroRoute.FetchedSeriesShape | src/app/api/macro/route.ts:73-98 | a fetched series answers 200 with the live value and history of the configured series, and is cached under its key for 24 hours |
| MacroRoute.ErrorsNotCached | src/app/api/macro/route.ts:33-35 | a missing key or a provider exception gives 500 and caches nothing |
| MacroRoute.InheritedNamePassesValidation | src/app/api/macro/route.ts:53 | the check as written accepts every inherited object property name, `constructor` among them, though none is an indicator |
| NewsPage.Initial | src/app/news/page.tsx:28-33 | the page opens on the first theme, page 1, with no results |
| NewsPage.TotalPages | src/app/news/page.tsx:60 | the page count is the fewest pages of 10 that hold every result |
| NewsPage.TotalPagesExamples | src/app/news/page.tsx:60 | 0 results give 0 pages, 1-10 give 1, 11-20 give 2, 21 give 3 |
| NewsPage.TotalPagesMonotone | src/app/news/page.tsx:60 | more results never mean fewer pages |
| NewsPage.Previous | src/app/news/page.tsx:110 | one page back, never below 1, nothing else changes |
| NewsPage.Next | src/app/news/page.tsx:120 | one page on, never past the page count, nothing else changes |
| NewsPage.SelectTheme | src/app/news/page.tsx:71-74 | selecting a theme sets it and resets the page to 1 |
| NewsPage.Dispatch | src/app/news/page.tsx:35-54 | a failed load empties the articles and zeroes the total; a successful one takes the fetched articles and total; clicks keep the theme and total |
| NewsPage.ClicksStayInRange | src/app/news/page.tsx:110-120 | from a page in 1..pages, any sequence of Previous/Next stays in 1..pages |
| NewsPage.PageStaysPositive | src/app/news/page.tsx:107-121 | whatever events occur, the page never drops below 1 |
| NewsPage.EnabledClicksMoveOnePage | src/app/news/page.tsx:107-121 | from a page in 1..pages, an enabled Next or Previous moves exactly one page |
| NewsPage.NextPastLastLandsOnLast | src/app/news/page.tsx:45-46 | a successful load keeps the page even when the new total has fewer pages; Next is then enabled and lands on the last page, below the current one (page 5 of a 25-result total goes to 3) |
| NewsPage.DisabledAtEnds | src/app/news/page.tsx:111-121 | Previous is disabled exactly where it would do nothing, and so is Next |
| NewsPage.FailureHidesControls | src/app/news/page.tsx:47-50 | after a failed load there are no pages and the controls are hidden |
| NewsPage.ThemesReachEndpoints | src/app/news/page.tsx:25 | every theme button's request reaches the news route's theme branch; `general` falls through to the general headlines |

## Findings

| source | as written | input that shows it | evidently intended | confidence | as-written member | corrected member |
|---|---|---|---|---|---|---|
| src/app/api/macro/route.ts:53 | the indicator is checked by a plain-object lookup `indicatorConfig[indicator]`, so inherited property names pass | `indicator=constructor` (also `toString`, `__proto__`, …): validation passes, the cache is read under `macro_constructor`, and the provider is asked for series `undefined`, which ends in 500 | a 400 for anything but the four configured names | not executed; high | MacroRoute.InheritedNamePassesValidation | MacroRoute.ParseIndicator |

The rest of the model uses the corrected `ParseIndicator`, so `Macro` answers
400 to inherited names.

## Left out

- Remote store plumbing: the ioredis client, connection handling and
  serialisation are not modelled. The remote store is a map with the same
  strict freshness rule as memory. Each call's success or failure is an input.
- Cache.Set: does not model the remote store rejecting a non-positive `PX`
  expiry. Every caller passes a positive constant.
- Clock: `Date.now()` is the explicit argument `now`. A request's read and
  write each take their own instant (`CacheCalls`).
- Concurrency: each handler runs as one atomic step on the cache. The
  interleaving of concurrent requests' `await`s is not modelled.
- SearchRoute.Lower: folds only the ASCII letters A-Z. JavaScript's
  `toLowerCase` also folds non-ASCII letters.
- URL encoding: `encodeURIComponent` in the search request is not modelled.
  Neither is the news route's unencoded interpolation of `q` and `category`.
  `NewsRoute.Url` renders the decision as plain text.
- Provider payloads: news articles are opaque data that is forwarded. JSON
  parsing and `response.text()` are folded into the reply oracles, and a parse
  exception counts as a thrown reply.
- The macro config's `name` field is part of `Config`, but the route never
  returns it, so no property mentions it.
- Logging (`console.log` / `console.error`) is not modelled.
- News page: rendering, the `useEffect` that reloads when the theme or page
  changes, and the article list are not modelled. The page's fetch wrapper
  (`src/utils/newsApi.ts`) swallows errors and returns no articles with a
  total of 0. So `LoadFailed` models the page's catch branch, which that
  wrapper never reaches.
- The rest of the repository is not modelled: rendering-only pages and
  components, the generative-AI routes, the chat state, the blob-delete route,
  and the thin fetch wrappers. Float arithmetic, number formatting and
  `parseFloat` sign tests are left out too. Neither `getCache` nor `setCache` checks
  for an empty key or a non-positive TTL (src/utils/cache.ts:17-47), so the
  model has no such preconditions.
