# react-query-starter: optimistic hero mutation, infinite colour pages, hero initial data

The react-query-starter example pages leave caching, retries and refetching
to the `react-query` library. This project models the three pieces of logic
the repository itself writes, over an explicit stand-in for the query cache:

- **The add-hero mutation** (`useAddSuperHeroData`). `onMutate` cancels
  refetches of the `"super-heroes"` query and takes a snapshot of its entry.
  It then writes an optimistic entry: the old one, with a hero appended to
  its `data` list. `onError` writes the snapshot back. `onSettled`
  invalidates the query.
- **The infinite colour query** (`InfiniteQueriesPage`). `fetchColors` builds
  a paged URL from `pageParam`, which defaults to 1. `getNextPageParam`
  offers page `pages.length + 1` while fewer than four pages are loaded.
- **The hero detail query** (`useSuperHeroData`). Its key and fetch URL, and
  its `initialData`: the first cached hero whose id is `parseInt(heroId)`,
  wrapped as `{ data: hero }`, or `undefined`.

Files:

- `JsValue.dfy`: JavaScript values as a JSON-shaped datatype (`undefined` is
  `Option.None`). It also holds truthiness, `?.` field access, array spread,
  and `Result.TypeError` for the expressions that throw.
- `JsNumber.dfy`: `${n}` and `parseInt` in base 10, and the round trip
  between them.
- `QueryCache.dfy`: class `QueryClient`, the cache stand-in. Its fields are a
  map from query key to cached data, a set of stale keys, and a set of keys
  with a fetch in progress. Its methods are the four client operations the
  hooks call. `setQueryData` stores fresh data, so it clears the key's stale
  mark. `invalidateQueries` only sets the stale mark. `cancelQueries` only
  stops the fetch in progress. Cached data changes only through
  `setQueryData`.
- `SuperHeroesData.dfy`: the updater passed to `setQueryData` (a function)
  and the three callbacks (methods on a `QueryClient`). `AddSuperHero` runs
  them in the library's order. Whether the POST failed is an input.
- `InfiniteQueries.dfy`: the URL, the page rule, and the sequence of page
  parameters the rule produces.
- `SuperHeroData.dfy`: the detail query's key, its two fetchers' URLs and
  `initialData`.
- `QueryKeys.dfy`: every query key of the application side by side: the
  keys of the three modelled hooks and those of the parallel and dependent
  query pages, which share the same client.

## Model

| member | source | states |
|---|---|---|
| QueryCache.QueryClient.GetQueryData | react-query-starter/src/hooks/useSuperHeroesData.js:59 | `getQueryData` returns the cached data when the key has an entry, and `undefined` otherwise; it only reads. |
| QueryCache.QueryClient.SetQueryData | react-query-starter/src/hooks/useSuperHeroesData.js:80 | `setQueryData(key, data)` makes `getQueryData(key)` return `data` and changes no other key. It clears the key's stale mark and leaves fetches alone. |
| QueryCache.QueryClient.UpdateQueryData | react-query-starter/src/hooks/useSuperHeroesData.js:60-70 | `setQueryData(key, updater)` stores the updater's result for the old data. When the updater throws, the error propagates and the cache is unchanged. |
| QueryCache.QueryClient.InvalidateQueries | react-query-starter/src/hooks/useSuperHeroesData.js:84 | `invalidateQueries(key)` adds the key to the stale set; cached data and fetches are unchanged. |
| QueryCache.QueryClient.CancelQueries | react-query-starter/src/hooks/useSuperHeroesData.js:58 | `cancelQueries(key)` stops the key's fetch in progress; cached data and stale marks are unchanged. |
| SuperHeroesData.OptimisticHero | react-query-starter/src/hooks/useSuperHeroesData.js:66 | `{ id: length + 1, ...newHero }` has every field of `newHero` and an `id`. That `id` is `length + 1` unless `newHero` has its own `id`, which then wins. |
| SuperHeroesData.AddHeroUpdater | react-query-starter/src/hooks/useSuperHeroesData.js:60-70 | The updater succeeds exactly when the old entry is an object whose `data` can be spread; otherwise it throws. On success the new `data` list is the old list with exactly one hero appended. Every other field of the entry is kept. |
| SuperHeroesData.AddHeroKeepsNumbering | react-query-starter/src/hooks/useSuperHeroesData.js:64-66 | If the cached heroes are numbered 1..n in order, the synthesized id n + 1 is new, and the list after the write is numbered 1..n+1. |
| SuperHeroesData.OptimisticIdCanCollide | react-query-starter/src/hooks/useSuperHeroesData.js:66 | Example: with heroes 1 and 3 cached, the appended hero also gets id 3, because length + 1 is not an unused id once the numbering has a gap. |
| SuperHeroesData.OnMutate | react-query-starter/src/hooks/useSuperHeroesData.js:56-76 | `onMutate` cancels the list's fetch and returns the entry read before the write as `previousHeroData`. It stores the updater's result under `"super-heroes"` and touches no other key. It throws and writes nothing exactly when the updater throws. |
| SuperHeroesData.OnError | react-query-starter/src/hooks/useSuperHeroesData.js:77-81 | `onError` makes `getQueryData("super-heroes")` return the snapshot. Only that key changes. |
| SuperHeroesData.OnSettled | react-query-starter/src/hooks/useSuperHeroesData.js:82-85 | `onSettled` marks `"super-heroes"` stale and changes nothing else. |
| SuperHeroesData.AddSuperHero | react-query-starter/src/hooks/useSuperHeroesData.js:32-87 | For one mutation whose callbacks do not interleave with another mutation's: a failed POST leaves the whole cache exactly as it was before `onMutate` (the rollback round trip), and a successful one leaves the optimistic entry. Both outcomes mark the list stale and change no other key's data or stale mark. |
| SuperHeroesData.OverlappingFailedMutations | react-query-starter/src/hooks/useSuperHeroesData.js:56-81 | Two mutations A and B on a cached list, both failing, in the order A's `onMutate`, B's `onMutate`, A's `onError`, B's `onError`: the cache ends with A's optimistic entry, which differs from the entry before, so the round trip fails for overlapping mutations. |
| JsNumber.ParseIntOfNumberToString | react-query-starter/src/components/InfiniteQueries.page.js:7 | Reading back the decimal text of an integer gives the integer: `parseInt(`${n}`) === n`. |
| JsNumber.NumberToString | react-query-starter/src/components/InfiniteQueries.page.js:7 | `${n}` has a minus sign exactly when `n` is negative, then decimal digits with no leading zero except in `0`. |
| JsNumber.ParseIntIgnoresRest | react-query-starter/src/hooks/useSuperHeroData.js:22 | `parseInt` reads the numeral at the start of a string and ignores what follows it when that does not start with a digit: `parseInt(`${n}` + rest) === n`. |
| JsNumber.NumberToStringInjective | react-query-starter/src/components/InfiniteQueries.page.js:7 | Different integers are written as different numerals. |
| JsNumber.ParseInt | react-query-starter/src/hooks/useSuperHeroData.js:22 | `parseInt` yields a number exactly when digits follow the optional sign, and NaN otherwise; which number is stated by `JsNumber.ParseIntIgnoresRest`. |
| JsValue.OptionalField | react-query-starter/src/hooks/useSuperHeroData.js:20-22 | `v?.data` has a value exactly when `v` is an object whose `data` field is present and not `null`, and that value is `v.data`; otherwise the chain stops at `undefined`. |
| JsValue.Spread | react-query-starter/src/hooks/useSuperHeroesData.js:65 | `[...v]` succeeds exactly for arrays and strings; an array spreads into its items, and a string into its characters, element i being the one-character string of character i. |
| InfiniteQueries.PageParamOrDefault | react-query-starter/src/components/InfiniteQueries.page.js:6 | `fetchColors` uses page 1 when no `pageParam` is passed, and the passed one otherwise. |
| InfiniteQueries.ColorsUrl | react-query-starter/src/components/InfiniteQueries.page.js:6-8 | The colours URL is `http://localhost:4000/colors?_limit=2&_page=` followed by the page parameter (1 when none is passed). That page parameter can be read back from the URL. |
| InfiniteQueries.ColorsUrlInjective | react-query-starter/src/components/InfiniteQueries.page.js:7 | Different page parameters give different URLs. |
| InfiniteQueries.GetNextPageParam | react-query-starter/src/components/InfiniteQueries.page.js:22-28 | There is a next page exactly when fewer than 4 pages are loaded, and it is page `pages.length + 1`. `lastPage` plays no part. |
| InfiniteQueries.RemainingPageParams | react-query-starter/src/components/InfiniteQueries.page.js:22-28 | Fetching next pages while the rule offers one, from n loaded pages, requests at most 4 - n more pages, all numbered between n + 1 and 4. |
| InfiniteQueries.RemainingPageParamsCountUp | react-query-starter/src/components/InfiniteQueries.page.js:22-28 | With n pages loaded, following the rule requests exactly pages n+1, ..., 4, in order. |
| InfiniteQueries.RequestedPageParams | react-query-starter/src/components/InfiniteQueries.page.js:6-28 | The query's requests start with page 1, number at most 4, and stay between pages 1 and 4. |
| InfiniteQueries.RequestedPageParamsAreOneToFour | react-query-starter/src/components/InfiniteQueries.page.js:6-28 | Starting from the default page 1, the query requests exactly pages 1, 2, 3, 4 and then stops, whatever the server returns. |
| InfiniteQueries.RequestedUrls | react-query-starter/src/components/InfiniteQueries.page.js:6-28 | Exactly four page URLs are requested; the i-th ends in i + 1. |
| SuperHeroData.SuperHeroKey | react-query-starter/src/hooks/useSuperHeroData.js:17 | The detail query's key is exactly `["super-hero", heroId]`. |
| QueryKeys.UserKey | react-query-starter/src/components/DependentQueries.page.js:13 | The user query's key is exactly `["user", email]`. |
| QueryKeys.ChannelKey | react-query-starter/src/components/DependentQueries.page.js:20-21 | The channel query's key is exactly `["channel", channelId]`. |
| QueryKeys.NoKeyExtendsAnother | react-query-starter/src/components/ParallelQueries.page.js:16-17 | Among `["super-heroes"]`, `["colors"]`, `["friends"]`, any two `["super-hero", id]`, a `["user", email]` and a `["channel", channelId]`, which are all the keys the application's one client holds, no key is a proper prefix of another. So the library's prefix matching in `invalidateQueries` and `cancelQueries` selects only the given key. |
| SuperHeroData.FetchSuperHeroUrl | react-query-starter/src/hooks/useSuperHeroData.js:4-6 | `fetchSuperHero` requests `http://localhost:4000/superheroes/` followed by exactly the hero id. |
| SuperHeroData.FetchSuperHeroAnotherWayUrl | react-query-starter/src/hooks/useSuperHeroData.js:8-12 | `fetchSuperHeroAnotherWay` requests the fixed prefix followed by `queryKey[1]`, or by the text `undefined` when the key has no second element. |
| SuperHeroData.FetchersAgree | react-query-starter/src/hooks/useSuperHeroData.js:4-12 | Called with the key `["super-hero", heroId]`, `fetchSuperHeroAnotherWay` requests the same URL as `fetchSuperHero(heroId)`. |
| SuperHeroData.FindHero | react-query-starter/src/hooks/useSuperHeroData.js:22 | `find` returns the first element whose `id` equals the parsed id. It finds nothing when no element has it and none is `null`. It throws when it reaches a `null` element before a match, since the callback reads `null.id`. |
| SuperHeroData.InitialData | react-query-starter/src/hooks/useSuperHeroData.js:18-32 | `initialData` is `undefined` when the entry or its `data` is missing or null. It throws when the cached `data` is present but not an array, or when the search reaches a `null` hero before a match. Otherwise it is `{ data: hero }` for the first hero with the parsed id, or `undefined` when no hero has it. It is a function of the cached value, so it never writes the cache. |
| SuperHeroData.InitialDataOf | react-query-starter/src/hooks/useSuperHeroData.js:18-22 | The hook's `initialData` looks at what the client holds under `"super-heroes"`: `undefined` when there is no entry, otherwise `SuperHeroData.InitialData` of that entry. It only reads the client. |
| SuperHeroData.InitialDataFindsFirst | react-query-starter/src/hooks/useSuperHeroData.js:18-28 | When the search reaches a hero with the parsed id (no `null` before it), the initial data wraps that first such hero. |
| SuperHeroData.NullHeroBeforeMatchThrows | react-query-starter/src/hooks/useSuperHeroData.js:22 | Example: with `{ data: [null, { id: 1 }] }` cached and route parameter `"1"`, `initialData` throws. |
| SuperHeroData.InitialDataOfNaN | react-query-starter/src/hooks/useSuperHeroData.js:22 | A route parameter that parses to NaN never yields initial data, since NaN equals nothing under `===`. |

## Left out

- The `react-query` library is not modelled: background refetching, real cancellation, retries, deduplication, `hasNextPage` and `isFetching`. Its `QueryClient` appears only as the stand-in above.
- `invalidateQueries` and `cancelQueries` act on every key that starts with the given one, but the stand-in acts on that exact key only. `QueryKeys.NoKeyExtendsAnother` shows that no key of the application, the pages' own keys included, starts with another, so the two agree here.
- The repository neither rejects a second mutation while one is in flight nor ensures one success-or-error callback per call; neither is modelled.
- SuperHeroesData.AddSuperHero: the rollback round trip holds for one mutation whose callbacks do not interleave with another mutation's. The "Add Hero" button is never disabled, so mutations can overlap, and then the round trip fails (`SuperHeroesData.OverlappingFailedMutations`).
- `QueryClient.fetching` is never added to, because fetches are started by the library; it only gives `cancelQueries` something to stop.
- SuperHeroesData.AddSuperHero: stops when `onMutate` throws (no cached list). The library would then call `onError` with no context, which throws again at `context.previousHeroData`, and the cache stays as it is. That library path is not modelled.
- The POST and the `request` wrapper in `utils/axios-utils.js` are network I/O and are not modelled. The POST's failure is the input `requestFailed`. Note that the wrapper's `.catch` returns the error instead of rethrowing it. A failed POST then resolves, and the library would not call `onError` at all.
- `useSuperHeroesData` and `fetchSuperHeroes` (useSuperHeroesData.js:6-30) are left out. They only hand a fetcher and two callbacks to `useQuery`, and the fetch is network I/O.
- JavaScript numbers are modelled as unbounded integers. Fractions, NaN as a stored value, and precision loss above 2^53 are not modelled.
- JsNumber.ParseInt: leading white space and the `0x` radix prefix are not modelled; the route parameter is a URL path segment.
- JsValue.Spread: a string spreads into one element per character, and its `.length` counts the same characters. JavaScript counts UTF-16 code units for `.length` and code points for a spread, and the two differ outside the Basic Multilingual Plane.
- The insertion order of object keys is not modelled (objects are maps).
- Query key elements are strings. The channel key is `["channel", undefined]` until the user has loaded; its first element already sets it apart from every other key, which is all prefix matching looks at here.
- `newHero` is modelled as an object (a field map), which is what the page passes. Spreading a non-object variable is not modelled.
- Rendering, routing and the JSX of all pages are not modelled. The pages `RQSuperHeroes.page.js`, `RQSuperHero.js`, `ParallelQueries.page.js` and `DependentQueries.page.js` only call hooks and pass truthiness gates to the library.
- Timestamps, devtools and console logging are not modelled.
