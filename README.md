# A verified model of the demo app's state logic

This project models, in Dafny, the parts of a small React demo app (a product
catalogue, a cached fetch of a remote list, and a paginated list of posts)
that carry behaviour worth stating:

- **Filter state ↔ URL query** (`src/hooks/useUrlParams.ts`). `ParseFilters`
  reads the `search`, `category`, `minPrice` and `maxPrice` parameters with
  the defaults `''`, `''`, `0` and `1000`. `SerializeFilters` writes back
  only the parameters on the non-default side of their guards. The class
  `UrlSync` holds the in-memory filters and the session history (a list of
  entries and the current position). `UpdateFilters` replaces the current
  entry. `PopState` re-parses the entry the browser moved to. The round trip
  holds exactly when `0 <= min`, `max <= 1000` and `max != 0`. A maximum of 0
  is written as `"0"` but read back as 1000, because `Number(...) || 1000`
  treats 0 as missing.
- **Catalogue filtering** (`src/components/ProductList.tsx`,
  `src/components/filters/PriceRangeSlider.tsx`, `src/utils/mockData.ts`).
  The filter predicate, the three field handlers, the two slider clamps,
  the distinct categories in first-occurrence order, the price bounds, and
  the catalogue itself as a concrete case.
- **Pagination** (`src/hooks/usePaginatedFetch.ts`,
  `src/components/PaginatedList.tsx`). Module `Pagination` gives the state
  machine as pure transitions: start of a page fetch, its completion,
  `loadMore` and `retry`. Both copies use it. They differ in a `Config`:
  page size, base URL and, for the posts list, the known total of 100 that
  bounds `hasMore`. The classes `PaginatedFetch.PaginatedFetch` and
  `PaginatedList.PaginatedList` update their state cells step by step. Each
  method is proved to perform the matching transition.
- **Memoising fetch** (`src/hooks/useFetch.ts`). The module-wide cache is
  an object (`FetchCache.Cache`) shared by every caller (`FetchCache.UseFetch`).
  The pure transitions `FetchStep`, `CompleteStep` and `RetryStep` specify
  the class's methods.

A fetch is split at its `await`. The start step runs synchronously. The
completion step takes the response as an argument (`Http.Response`: a status
with a parsed body, a body that failed to parse, or a rejected request), and
`Http.Outcome` maps that response to the value or message the source's
`try`/`catch` produces. Requests still in flight are recorded. `retry` is not
guarded by `loading`, so a second request can be issued before the first is
answered, and the model can represent that.

## Model

| member | source | states |
|---|---|---|
| `Numbers.ParseInt` | src/hooks/useUrlParams.ts:11-12 | `Number(s)`: accepts only a non-empty numeral, digits with an optional leading minus; every all-digit string is accepted, and its value is non-negative; partner `ParseIntOfIntToString` |
| `Numbers.IntToString` | src/hooks/useUrlParams.ts:29-33 | `toString()`: non-empty; all digits for `n >= 0`; a minus then digits for `n < 0`; no leading zero (`"0"` for zero); read back by `ParseIntOfIntToString` |
| `Numbers.NatToStringCanonical` | src/hooks/useUrlParams.ts:29-33 | the decimal numeral of a positive number never starts with `0`, and zero is written `"0"` |
| `Numbers.NumberOr` | src/hooks/useUrlParams.ts:11-12 | `Number(v) \|\| d`: a missing value, a non-numeral and zero all give the default; any other numeral gives its value |
| `Numbers.ParseIntOfIntToString` | src/hooks/useUrlParams.ts:29-33 | a price written with `toString()` reads back as the same integer with `Number` |
| `Numbers.NumberOrOfZero` | src/hooks/useUrlParams.ts:12 | a written `0` is read back as the default |
| `Numbers.NumberOrRoundTrip` | src/hooks/useUrlParams.ts:11-12 | every non-zero integer survives being written and read back, whatever the default |
| `Http.Outcome` | src/hooks/useFetch.ts:26-41 | success exactly for a 2xx status with a parsed body; a non-ok status gives `"HTTP error! status: N"`; a failed parse or a rejected request gives its error's message; a thrown non-`Error` gives `"An error occurred"` |
| `Http.StatusError` | src/hooks/useFetch.ts:30 | the message is longer than, and starts with, `"HTTP error! status: "` |
| `Http.StatusErrorNamesStatus` | src/hooks/useFetch.ts:30 | the non-ok message starts with the fixed prefix and the status can be parsed back from the rest |
| `UrlParams.Get` | src/hooks/useUrlParams.ts:8-12 | `params.get(k)`: present exactly when the key is in the query, and then its value |
| `UrlParams.StringOr` | src/hooks/useUrlParams.ts:8-9 | `v \|\| ''`: empty exactly when the key is missing or its value empty; otherwise the value |
| `UrlParams.ParseFilters` | src/hooks/useUrlParams.ts:6-14 | each field is its parameter, or its default when missing, empty, non-numeric or zero |
| `UrlParams.SerializeFilters` | src/hooks/useUrlParams.ts:18-34 | only the four keys; `search`/`category` present iff non-empty; `minPrice` iff `min > 0`; `maxPrice` iff `max < 1000`; each value is the field, the prices as decimals |
| `UrlParams.ParseEmptyQuery` | src/hooks/useUrlParams.ts:8-13 | a query with none of the four keys parses to the defaults |
| `UrlParams.ParseNonNumericPrice` | src/hooks/useUrlParams.ts:11-12 | non-numeric `minPrice`/`maxPrice` fall back to 0 and 1000 |
| `UrlParams.SerializeEmptyIff` | src/hooks/useUrlParams.ts:20-36 | the query is empty, so the URL is the bare pathname, iff every field is on its default side |
| `UrlParams.RoundTripIff` | src/hooks/useUrlParams.ts:8-34 | parse(serialise(f)) == f iff `0 <= min`, `max <= 1000` and `max != 0` |
| `UrlParams.RoundTrip` | src/hooks/useUrlParams.ts:8-34 | under those conditions the round trip is the identity |
| `UrlParams.ZeroMaxIsLost` | src/hooks/useUrlParams.ts:12-33 | `max = 0` is written as `"0"` and read back as 1000 |
| `UrlParams.DefaultsRoundTrip` | src/hooks/useUrlParams.ts:8-36 | the defaults give the empty query, and the empty query gives the defaults |
| `UrlParams.ExampleRoundTrip` | src/hooks/useUrlParams.ts:20-34 | `{foo, Electronics, 50, 500}` writes all four parameters and reads back unchanged |
| `UrlParams.UrlSync.constructor` | src/hooks/useUrlParams.ts:5-15 | the initial filters are the parse of the current entry's query |
| `UrlParams.UrlSync.UpdateFilters` | src/hooks/useUrlParams.ts:40-43 | filters become exactly the argument; the current entry is replaced by pathname + serialised query; history length and position unchanged |
| `UrlParams.UrlSync.UpdateUrl` | src/hooks/useUrlParams.ts:17-38 | `replaceState`: only the current entry changes, to the serialised query |
| `UrlParams.UrlSync.PopState` | src/hooks/useUrlParams.ts:46-55 | after navigating to an entry, filters are the same parse as at initialisation; the history is not written |
| `ProductList.Lower` | src/components/ProductList.tsx:18 | lower-casing keeps the length and lower-cases each character |
| `ProductList.Includes` | src/components/ProductList.tsx:18 | `includes` holds iff the needle occurs at some position |
| `ProductList.MatchesSearch` | src/components/ProductList.tsx:18 | case-insensitive substring test; specified through `Includes` and `SearchIgnoresCase`, and by `EmptyCriteriaSearch` for the empty term |
| `ProductList.MatchesCategory` | src/components/ProductList.tsx:19 | an empty category matches all; otherwise exact equality (`CategoryIsExact`) |
| `ProductList.MatchesPrice` | src/components/ProductList.tsx:20 | a price matches only when the range is ordered; both bounds inclusive (`EmptyCriteriaKeepAllInRange`) |
| `ProductList.Matches` | src/components/ProductList.tsx:18-22 | a product matches only under an ordered range, and only in the chosen category when one is set; `FilterProducts` keeps exactly the matching products |
| `ProductList.FilterProducts` | src/components/ProductList.tsx:16-24 | a product is in the result iff it is in the input and matches all three criteria; never longer than the input |
| `ProductList.FilterAppend` | src/components/ProductList.tsx:17 | filtering a concatenation is the concatenation of the filtered parts |
| `ProductList.FilterIsSubsequence` | src/components/ProductList.tsx:17 | the result is an order-preserving subsequence of the input |
| `ProductList.FilterIdempotent` | src/components/ProductList.tsx:16-24 | filtering the result again with the same filters returns it unchanged |
| `ProductList.EmptyCriteriaKeepAllInRange` | src/components/ProductList.tsx:18-20 | with empty search and category, a product is kept iff `min <= price <= max` |
| `ProductList.EmptyCriteriaSearch` | src/components/ProductList.tsx:18 | an empty search term matches every name |
| `ProductList.CategoryIsExact` | src/components/ProductList.tsx:19 | a non-empty category keeps only products whose category is exactly that string |
| `ProductList.SearchIgnoresCase` | src/components/ProductList.tsx:18 | two search terms with the same lower-case form select the same products |
| `ProductList.HomeBetween100And250` | src/components/ProductList.tsx:16-24 | on the catalogue, category Home with prices 100..250 keeps the coffee maker and the air purifier, in order |
| `ProductList.HandleSearchChange` | src/components/ProductList.tsx:26-28 | sets the search term, keeps category and price range |
| `ProductList.HandleCategoryChange` | src/components/ProductList.tsx:30-32 | sets the category, keeps search term and price range |
| `ProductList.HandlePriceRangeChange` | src/components/ProductList.tsx:34-36 | sets the price range, keeps search term and category |
| `ProductList.HandlersCommute` | src/components/ProductList.tsx:26-36 | changes to different fields commute; a later change to the same field wins |
| `PriceRangeSlider.HandleMinChange` | src/components/filters/PriceRangeSlider.tsx:18-23 | `max` unchanged; new `min < max`; equals `newMin` when `newMin < max`, else `max - 1` |
| `PriceRangeSlider.HandleMaxChange` | src/components/filters/PriceRangeSlider.tsx:25-30 | `min` unchanged; new `max > min`; equals `newMax` when `newMax > min`, else `min + 1` |
| `PriceRangeSlider.MinChangeIsGreatestAllowed` | src/components/filters/PriceRangeSlider.tsx:20 | the new minimum is the greatest value at most `newMin` and below `max` |
| `PriceRangeSlider.MaxChangeIsLeastAllowed` | src/components/filters/PriceRangeSlider.tsx:28 | the new maximum is the least value at least `newMax` and above `min` |
| `PriceRangeSlider.HandlersIdempotent` | src/components/filters/PriceRangeSlider.tsx:18-30 | repeating a change with the same slider value changes nothing more |
| `PriceRangeSlider.ValidRangeUnchanged` | src/components/filters/PriceRangeSlider.tsx:18-30 | on an ordered range, re-submitting the current value leaves it as it is |
| `MockData.Categories` | src/utils/mockData.ts:22 | the category list has one entry per product, in order |
| `MockData.Dedup` | src/utils/mockData.ts:22 | `Array.from(new Set(xs))`; specified by `DedupContents` and `DedupOrder` |
| `MockData.UniqueCategories` | src/utils/mockData.ts:21-23 | `getUniqueCategories`; specified by `UniqueCategoriesSpec` |
| `MockData.DedupContents` | src/utils/mockData.ts:22 | `Array.from(new Set(xs))` has no duplicates and exactly the values of `xs` |
| `MockData.DedupOrder` | src/utils/mockData.ts:22 | values come in order of first occurrence (Set insertion order) |
| `MockData.UniqueCategoriesSpec` | src/utils/mockData.ts:21-23 | no duplicates; every product's category is listed; every listed category belongs to a product; first-occurrence order |
| `MockData.MinPrice` | src/utils/mockData.ts:28 | at most every price, and equal to some price |
| `MockData.MaxPrice` | src/utils/mockData.ts:29 | at least every price, and equal to some price |
| `MockData.GetPriceRange` | src/utils/mockData.ts:25-31 | `min <= max`, every price lies between them, and both are prices of products |
| `MockData.MockCategories` | src/utils/mockData.ts:3-23 | the catalogue's categories are Electronics, Clothing, Home |
| `MockData.MockPriceRange` | src/utils/mockData.ts:3-31 | the catalogue's price range is 25 to 1999 |
| `Pagination.PageUrl` | src/hooks/usePaginatedFetch.ts:29 | the request URL starts with the base URL; its query is read back by `PageUrlNamesPage` (`PaginatedList.tsx:25` for the posts) |
| `Pagination.PageUrlNamesPage` | src/hooks/usePaginatedFetch.ts:29 | the URL is the base URL, `?_page=`, a numeral that `Number` reads as the page, `&_limit=`, and a numeral read as the page size |
| `Pagination.HasMoreAfter` | src/hooks/usePaginatedFetch.ts:44 | a short page always ends paging; with a known total, so does any page reaching it; without one, exactly a full page keeps it on (`PaginatedList.tsx:41` for the posts) |
| `Pagination.StartFetch` | src/hooks/usePaginatedFetch.ts:23-29 | `loading` on, `error` cleared, the page URL with `_page` and `_limit` requested; items, page, hasMore unchanged |
| `Pagination.Complete` | src/hooks/usePaginatedFetch.ts:27-51 | `loading` off; success: reset replaces, otherwise appends, and `hasMore` is the full-page test; failure: `error` set, items and `hasMore` kept |
| `Pagination.LoadMore` | src/hooks/usePaginatedFetch.ts:54-60 | no-op while loading or at the end; else page + 1, `error` cleared, `loading` on, and that page requested for appending |
| `Pagination.Retry` | src/hooks/usePaginatedFetch.ts:62-67 | page 1, no items, `hasMore` on, and a reset fetch of page 1, whatever the state |
| `Pagination.Initial` | src/hooks/usePaginatedFetch.ts:69-72 | mount: empty, page 1, and a reset fetch of page 1 in flight |
| `Pagination.FailedPageKeepsIncrement` | src/hooks/usePaginatedFetch.ts:54-58 | after a failed page the counter stays raised, items are kept, and the next `loadMore` asks for the following page |
| `Pagination.ItemsOnlyGrow` | src/hooks/usePaginatedFetch.ts:37-41 | a non-reset completion keeps the old items as a prefix |
| `Pagination.CapEndsPaging` | src/components/PaginatedList.tsx:41 | with a known total, `hasMore` is off after any page reaching it |
| `Pagination.SingleFlightPreserved` | src/hooks/usePaginatedFetch.ts:54-60 | `loadMore` and completion keep at most one fetch in flight with `loading` exactly while it is; `retry` too when not loading |
| `Pagination.RetryWhileLoading` | src/hooks/usePaginatedFetch.ts:62-67 | `retry` while loading leaves two fetches in flight, and the first completion turns `loading` off while one is pending |
| `Pagination.RoundsFromLoaded` | src/components/PaginatedList.tsx:34-57 | against a 100-post server, each answered `loadMore` adds the next ten posts |
| `Pagination.HundredPosts` | src/components/PaginatedList.tsx:40-41 | initial load plus nine `loadMore`s give posts 1..100 with `hasMore` off; a tenth `loadMore` is a no-op |
| `Pagination.UncappedNeedsEmptyPage` | src/hooks/usePaginatedFetch.ts:43-44 | without a total, a full tenth page leaves `hasMore` on; the empty eleventh turns it off and leaves the items unchanged |
| `PaginatedList.PostsPageUrl` | src/components/PaginatedList.tsx:24-26 | page 2 of the posts is requested from `https://jsonplaceholder.typicode.com/posts?_page=2&_limit=10` |
| `PaginatedList.HasMoreRule` | src/components/PaginatedList.tsx:41 | after success `hasMore` iff the page has 10 posts and `page*10 < 100`; off from page 10 on |
| `PaginatedFetch.PaginatedFetch.constructor` | src/hooks/usePaginatedFetch.ts:13-21 | page size defaults to 10; initial cells, then the initial reset fetch of page 1 |
| `PaginatedFetch.PaginatedFetch.FetchPage` | src/hooks/usePaginatedFetch.ts:23-25 | performs `StartFetch` on the fields |
| `PaginatedFetch.PaginatedFetch.Complete` | src/hooks/usePaginatedFetch.ts:27-51 | performs `Complete` on the fields |
| `PaginatedFetch.PaginatedFetch.LoadMore` | src/hooks/usePaginatedFetch.ts:54-60 | performs `LoadMore` on the fields |
| `PaginatedFetch.PaginatedFetch.Retry` | src/hooks/usePaginatedFetch.ts:62-67 | performs `Retry` on the fields |
| `PaginatedList.PaginatedList.constructor` | src/components/PaginatedList.tsx:66-69 | initial cells, then the mount effect's reset fetch of page 1 |
| `PaginatedList.PaginatedList.FetchPage` | src/components/PaginatedList.tsx:19-26 | performs `StartFetch` with the posts configuration |
| `PaginatedList.PaginatedList.Complete` | src/components/PaginatedList.tsx:28-48 | performs `Complete` with the posts configuration (page size 10, total 100) |
| `PaginatedList.PaginatedList.LoadMore` | src/components/PaginatedList.tsx:51-57 | performs `LoadMore` with the posts configuration |
| `PaginatedList.PaginatedList.Retry` | src/components/PaginatedList.tsx:59-64 | performs `Retry` with the posts configuration |
| `FetchCache.FetchStep` | src/hooks/useFetch.ts:12-27 | empty URL: nothing; cached: `data` is the cached value, no error, not loading, no request; else loading, error cleared, one request; cache unchanged |
| `FetchCache.CompleteStep` | src/hooks/useFetch.ts:26-44 | `loading` off; success: cached under the URL and becomes `data`; failure: `error` set, `data` null, cache unchanged |
| `FetchCache.RetryStep` | src/hooks/useFetch.ts:47-51 | the cache is the old one without the URL's entry, every other entry kept with its value; then `fetchData` runs, so a non-empty URL is always a miss: loading, error cleared, one request |
| `FetchCache.SecondFetchIsHit` | src/hooks/useFetch.ts:16-36 | after a successful fetch, any caller's next fetch of that URL is a hit with the value and no request |
| `FetchCache.RetryRefetches` | src/hooks/useFetch.ts:47-51 | `retry` always issues a request, and a success overwrites the cached value |
| `FetchCache.OtherEntriesUnchanged` | src/hooks/useFetch.ts:36 | a completion writes no other URL's entry |
| `FetchCache.FirstFetchSettles` | src/hooks/useFetch.ts:23-44 | an uncached fetch ends not loading with exactly one of `data`/`error`, after one request; a non-ok status gives its message |
| `FetchCache.Cache.constructor` | src/hooks/useFetch.ts:5 | the shared cache starts empty |
| `FetchCache.UseFetch.constructor` | src/hooks/useFetch.ts:8-10 | `data` and `error` null, not loading, no requests, then the mount effect's `fetchData` (`FetchStep`) |
| `FetchCache.UseFetch.FetchData` | src/hooks/useFetch.ts:12-27 | performs `FetchStep` on the fields and the shared cache |
| `FetchCache.UseFetch.Complete` | src/hooks/useFetch.ts:26-44 | performs `CompleteStep` on the fields and the shared cache |
| `FetchCache.UseFetch.Retry` | src/hooks/useFetch.ts:47-51 | performs `RetryStep`: evicts, then `FetchData` |

## Left out

- Rendering, CSS classes and layout. This covers the components' JSX, `App.tsx`, `PostList.tsx`, `ProductCard.tsx` (with its colour lookup), `CategoryDropdown.tsx`, `SearchInput.tsx` and `LoadingSpinner.tsx`. None of them has stateable behaviour.
- The slider's percentage and width computations (src/components/filters/PriceRangeSlider.tsx:32-33). They are floating-point arithmetic used only for styling.
- The network, `fetch` and `response.json()`. A response is an argument of the completion step.
- React's scheduling: hooks, re-renders, stale closures and when effects run. The constructors and methods stand for the mount effect and the callbacks.
- `FetchCache.UseFetch` with a changing URL. The class fixes its URL, and a new URL means a new object whose `data` starts null. In the source the hook keeps its `data`, `error` and `loading` cells when the URL changes, so the previous URL's `data` stays visible while the new one loads. The transitions `FetchStep` and `CompleteStep` take the URL as an argument, and applying them to one `World` with a new URL models that. The race where the old URL's response arrives after the change is not modelled.
- The `popstate` listener's registration and removal (src/hooks/useUrlParams.ts:58-59).
- `URLSearchParams` parsing and percent-encoding, and the order of parameters in the query string. The query is the key/value map. An empty map stands for the URL with no `?`.
- `window.location` and `window.history` as browser objects. They are the explicit entry list of `UrlSync`.
- `Numbers.NumberOr`: reads only decimal integer numerals with an optional minus sign. It does not model JavaScript's other numeral forms (surrounding white space, `+`, fractions, exponents, hex), NaN, infinities or floating point. Prices are whole numbers throughout.
- `ProductList.Lower`: lower-cases ASCII letters only, not the rest of Unicode.
- `MockData.GetPriceRange`: requires a non-empty product list. On an empty list the source returns infinities, which integers cannot represent.
- `Pagination.Complete`: takes the page's JSON as a list of items. A body that parses to something other than an array is not modelled.
