# Catalog view state of the media browser

A Dafny model of the view-state logic of the single page component in
`src/App.jsx`: the browser side of a media catalog (movies, series, anime)
that lists titles from a remote media API, filters them locally by tab and
search text, records downloads and seeds three sample titles.

The model has six modules, one per concern of the component:

- `Media` (media.dfy): `MediaItem` with an optional `title` and `kind` and a
  `downloads` field of type `Count`. `Count` is what JavaScript sees in a
  numeric JSON field: `Undefined`, `Null`, an integer, or the `NaN` that
  `undefined + 1` yields. `Coalesce` is `??` and `PlusOne` is `+ 1` on these
  values, so `null + 1` gives 1 and `undefined + 1` gives `NaN`, as in the
  browser.
- `Text` (text.dfy): ASCII lower-casing and `String.prototype.includes`,
  with a proof that `Includes` is substring containment.
- `Projection` (projection.dfy): the `filtered` memo (`Filter`) and the
  three-way choice between spinner, empty state and grid (`ScreenOf`).
- `Query` (query.dfy): the query parameters `fetchMedia` puts on the
  listing URL, as ordered entries.
- `Download` (download.dfy): the `prev.map(...)` patch `handleDownload`
  applies.
- `Store` (store.dfy): a class `Store` holding the component state (`query`,
  `active`, `items`, `loading`). It has methods for `fetchMedia` (split
  into `BeginFetch` and `FinishFetch` so the loading state in between is
  visible), `handleDownload` and `seed`.

The HTTP layer is not modelled. Each handler takes the outcome of its
network call as a parameter (`ListReply`, `DownloadReply`, `CreateOutcome`)
and appends the request it issues to the field `sent`. Every handler runs
as one atomic step.

Where the code does less than its UI or its data suggests, the model
follows the code:

- `handleDownload` does no optimistic increment. The counter changes only
  after an ok answer. A refused or failed download leaves every item
  exactly as it was (`Store.Store.HandleDownload`).
- A matching item takes the server's `downloads` verbatim when it is not
  nullish. So the counter is not guaranteed to grow locally. Only the
  fallback `downloads + 1` grows it.
- `fetchMedia` never looks at `res.ok`. Any JSON array body replaces the
  items. Any other body empties them. Only a thrown error (network or JSON
  parse) keeps the previous items.
- `seed` has no `catch`. The first rejected create stops the loop, and no
  refresh follows.
- The seed button is gated on the projection, not on the catalog. The
  empty state can show while items are held (`Projection.SeedGateIsPostFilter`).

## Model

| member | source | states |
|---|---|---|
| `Text.LowerChar` | src/App.jsx:124 | a definition without a contract (ASCII `A`-`Z` to `a`-`z`); `Text.Lower` and `Text.LowerIdempotent` describe it |
| `Text.Lower` | src/App.jsx:124 | lower-casing keeps the length and maps each character through ASCII `LowerChar` |
| `Text.LowerIdempotent` | src/App.jsx:124 | lower-casing twice is the same as lower-casing once |
| `Text.Includes` | src/App.jsx:124 | a definition of `includes` without a contract; `Text.IncludesIff` describes it |
| `Text.IncludesIff` | src/App.jsx:124 | `includes` holds iff the needle is the slice of the haystack at some offset |
| `Media.Coalesce` | src/App.jsx:155 | a definition of `??` without a contract; `Download.NewDownloads` states what it yields in the patch |
| `Media.PlusOne` | src/App.jsx:155 | `+ 1` is never nullish; it is a number exactly for a number or `null`; n gives n+1 and `null` gives 1 (so `undefined` and `NaN` give `NaN`) |
| `Projection.MatchesTab` | src/App.jsx:123 | a definition without a contract; `Projection.FilterMembership` and `Projection.TabOnly` describe it |
| `Projection.MatchesQuery` | src/App.jsx:124 | a definition without a contract; `Projection.QueryOnly`, `Projection.UntitledHidden` and `Projection.CaseInsensitive` describe it |
| `Projection.Matches` | src/App.jsx:125 | a definition without a contract (both the tab and the query match); `Projection.FilterMembership` describes it |
| `Projection.Filter` | src/App.jsx:121-127 | the projection is never longer than `items`, and every shown entry is held and matches both tab and query |
| `Projection.FilterAllEmpty` | src/App.jsx:121-127 | with tab `all` and an empty query the projection is `items` itself, same order and length |
| `Projection.FilterMembership` | src/App.jsx:122-125 | an item is shown iff it is held, its tab matches (`all`, or `kind == active`) and the query matches |
| `Projection.FilterSubsequence` | src/App.jsx:122 | there is a strictly increasing index map from the projection into `items`: an order-preserving subsequence |
| `Projection.FilterAppend` | src/App.jsx:122 | filtering a concatenation is the concatenation of the filtered parts (stable, item-by-item filter) |
| `Projection.FilterIdempotent` | src/App.jsx:121-127 | filtering the projection again changes nothing |
| `Projection.FilterKeepsAll` | src/App.jsx:122-125 | the projection equals `items` iff every held item matches |
| `Projection.FilterEmptyIff` | src/App.jsx:122-125 | the projection is empty iff no held item matches |
| `Projection.TabOnly` | src/App.jsx:123 | for a specific tab and an empty query, an item is shown iff it is held and its `kind` is that tab |
| `Projection.QueryOnly` | src/App.jsx:124 | for tab `all`, an item is shown iff it is held and the query is empty or occurs in its lower-cased title, case ignored |
| `Projection.UntitledHidden` | src/App.jsx:124 | with a non-empty query an item without a title is never shown |
| `Projection.CaseInsensitive` | src/App.jsx:124 | two queries equal up to ASCII case give the same projection |
| `Projection.ScreenOf` | src/App.jsx:244-256 | spinner iff loading; empty state iff not loading and no held item matches; otherwise the grid shows the non-empty projection |
| `Projection.SeedGateUnfiltered` | src/App.jsx:244-247 | under tab `all` and an empty query the seed button shows iff not loading and no item is held |
| `Projection.SeedGateIsPostFilter` | src/App.jsx:246-247 | the seed button can show while the catalog holds items (the gate is the projection) |
| `Query.SearchParams` | src/App.jsx:133-136 | `kind` is present iff the tab is not `all`, `q` iff the query is non-empty, both verbatim, `kind` first; at most these two entries, each key once, so `set` leaves no other value; empty iff `all` and `''` |
| `Query.SearchParamsExamples` | src/App.jsx:133-135 | `movie`/`Drift` gives `kind=movie&q=Drift`; `all`/`''` gives no parameters |
| `Download.PatchItem` | src/App.jsx:155 | a definition of the map callback without a contract; `Download.Patch` describes it |
| `Download.NewDownloads` | src/App.jsx:155 | a non-nullish server value wins; otherwise the old number plus one, a held `null` gives 1, a held `undefined` or `NaN` gives `NaN`; the result is never nullish |
| `Download.Patch` | src/App.jsx:155 | keeps the length and every entry with another id; a matching entry changes only `downloads`, which becomes `NewDownloads` |
| `Download.PatchAbsent` | src/App.jsx:155 | a patch for an id that is not held changes nothing |
| `Download.PatchExamples` | src/App.jsx:155 | from 5, a served 6 gives 6 (not 7), and an absent or null served value gives 6 |
| `Download.PatchCommutesWithFilter` | src/App.jsx:155 | projecting the patched items equals patching the projection, because the filter ignores `downloads` |
| `Store.Samples` | src/App.jsx:163-182 | the three sample drafts as data, without a contract; `Store.Store.Seed` states how they are posted |
| `Store.CreateRequests` | src/App.jsx:183-187 | a definition without a contract (one create request per draft); `Store.CreateRequestsAppend` and `Store.Store.Seed` describe it |
| `Store.CreateRequestsAppend` | src/App.jsx:183-187 | posting two batches of drafts one after the other sends the requests of the first batch, then those of the second |
| `Store.Received` | src/App.jsx:140-142 | the replacement rule, without a contract; `Store.Store.FinishFetch` states it case by case |
| `Store.Store.constructor` | src/App.jsx:116-119 | empty query, tab `all`, no items, not loading, nothing sent |
| `Store.Store.Shown` | src/App.jsx:121-127 | the state's projection, without a contract; the `Projection.Filter` lemmas describe it |
| `Store.Store.View` | src/App.jsx:244-256 | the state's screen, without a contract; `Projection.ScreenOf` states it |
| `Store.Store.SetQuery` | src/App.jsx:116 | sets only the query |
| `Store.Store.SetActive` | src/App.jsx:117 | sets only the tab; nothing is fetched |
| `Store.Store.BeginFetch` | src/App.jsx:130-138 | loading becomes true, and one listing request with the current tab's and query's parameters is sent |
| `Store.Store.FinishFetch` | src/App.jsx:139-145 | loading becomes false; an array body replaces the items, another body empties them, a thrown error keeps them |
| `Store.Store.FetchMedia` | src/App.jsx:129-146 | after a refresh loading is false whatever the outcome; the items follow `Received`; exactly one listing request is sent |
| `Store.Store.HandleDownload` | src/App.jsx:150-160 | one download request is sent; an ok answer applies `Patch`; a non-ok or thrown answer leaves the items unchanged |
| `Store.Store.Seed` | src/App.jsx:162-189 | reachable only from the empty state; posts the three samples in order until one rejects; after three resolved posts exactly one refresh follows; after a rejection nothing else is sent and no state changes |
| `Store.DownloadScenario` | src/App.jsx:121-160 | held `[Neon Drift, Blade Sakura(3)]` under tab `anime` shows only Blade Sakura; an ok answer without a counter shows it with 4; a refused download keeps 4 |

## Left out

- JSX rendering, styling, animation and icons; `Badge`, `Navbar`, `MediaCard`, `EmptyState` appear only as the three-way `Screen` choice.
- The HTTP layer (`fetch`, `URL`, `searchParams`, `res.json()`, `API_BASE`): only outcomes are modelled, as handler parameters. An invalid `API_BASE` makes `new URL` throw before anything is sent; the model still records the listing request in that case.
- `Projection.ScreenOf`: the empty state is modelled as one value and its button as the `requires` of `Store.Store.Seed`, not as a clickable element.
- Async interleaving: overlapping refreshes, a download answer landing after a refresh, and handlers that read a stale `active` or `query` from an earlier render are not modelled. Each handler is one atomic step.
- `Text.Lower`: only ASCII letters are lower-cased. Unicode `toLowerCase` is not modelled.
- Non-string titles (on which `toLowerCase` throws during render), items without an `id`, a `null` download body, and `downloads` values that are non-integral numbers or strings are not modelled.
- JavaScript numbers are modelled as unbounded integers, so precision loss above 2^53 is not modelled.
- `rating`, `description`, `poster_url`, `video_url` and `tags` only pass through and are dropped. `year` stands for them. Sample drafts keep only `title`, `kind` and `year`.
- `console.error` logging, the `useEffect` mount refresh, the "Get started" button and the footer year are not modelled.
- Seeding outcomes are modelled as resolved or rejected only. A create with a non-ok status resolves, as `fetch` does.
