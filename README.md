# Anime page: cached fetcher with retry, and search presentation rules

A Dafny model of the two pieces of logic in the anime-browsing page:

- **The cached fetcher** of `anime/script.js`. `CacheRequest(url, key)` serves a
  JSON dataset from the browser's `localStorage` when a truthy string is stored
  under `key`; otherwise it downloads `url` through `WithRetries`, stores the
  re-serialised body under `key`, and returns it, swallowing every failure
  into an `undefined` result. `WithRetries(url, retries = 3, delay = 1000)`
  fetches until a response has an OK status, waits `delay` ms after each
  failed attempt but the last, and throws "Max retries reached. Could not
  fetch data." when the budget is used up.
- **The search component** of `anime/src/search.jsx`: the request that
  `fetchAnime` sends and what it resolves with (`data.data || []`, an error
  on a non-OK status), what the result area shows, the 30-character heading
  truncation and the episodes label of each card, the guards of
  `searchAnime` and of the debounced `handleSearch` (which trims the typed
  value), and the trailing-edge `debounce` itself.

Modules: `Wrappers` (Option, Result), `Js` (JavaScript values, truthiness,
`||`, property access), `Retry` (`WithRetries`), `Cache` (`localStorage` and
`CacheRequest`), `Debounce` (`debounce`), `Search` (the rest of the search
component).

Modelling choices:

- The network is an oracle `net: nat -> Outcome`: attempt i of a call sees
  `net(i)`, which is a rejected fetch (`NetErr`) or a response with a status
  and a body text. `response.ok` is a status in 200..299, as in the Fetch
  standard.
- The side effects of a call (each `fetch(url)` and each
  `setTimeout(resolve, delay)` wait) are returned, in order, as a trace of
  `Fetch(url)` and `Sleep(ms)` effects. Wall-clock time is not modelled.
- `WithRetries` is a method with the source's `while` loop, proved equal to
  `RetrySpec`, a loop-free statement of its whole behaviour; the lemmas about
  retries are stated on `RetrySpec`.
- `localStorage` is the class `Cache.Storage` with a `map<string, string>`
  field; `CacheRequest` is a method that reads and writes it, proved equal to
  the function `Cache.Request`, about which the cache lemmas are stated.
- JSON text is handled by a codec passed as a parameter (`parse` for
  `JSON.parse` / `response.json()`, returning None on text that is not JSON;
  `stringify` for `JSON.stringify`). The memoisation lemma assumes the codec
  is faithful (stringify yields non-empty text that parses back to the same
  value); nothing else depends on how JSON is encoded.
- A cache entry counts only when the stored string is truthy
  (anime/script.js:152): a key that is present but holds the empty string is
  treated as a miss and fetched again.
- `JSON.parse` of a cached string sits outside the `try` block
  (anime/script.js:153), so a cached string that is not JSON makes the call
  reject; the model returns `Rejected(SyntaxError)` there.
- `CacheRequest` never uses its own `retries` and `delay` parameters: it
  always calls `WithRetries(url)` with the defaults 3 and 1000, so at most 3
  fetches and 2 waits happen per call.
- The debouncer's timer expiring is an explicit event (`Tick`,
  `Debouncer.Elapse`, `SearchBox.TimerExpires`); the 300 ms quiet period is
  not modelled.
- The debounced callback reads `e.target.value` when the timer fires; the
  model passes the value typed with the most recent change event, which is
  the input's value at that moment.

## Model

| member | source | states |
|---|---|---|
| `Retry.RetrySpec` | anime/script.js:169-187 | the loop-free behaviour of WithRetries: a returned response is OK, effects occur iff the budget is positive, and they start and end with a fetch of `url` |
| `Retry.FirstOk` | anime/script.js:171-175 | the index of the first OK outcome among the attempts, or the budget when none is OK: every earlier attempt failed |
| `Retry.WithRetries` | anime/script.js:169-187 | the loop's result and its fetch/wait trace equal `RetrySpec`; a returned response is OK |
| `Retry.FailedAttemptsShape` | anime/script.js:176-184 | k failed attempts that are retried produce fetch, wait, fetch, wait, ...: k fetches and k waits of `delay` |
| `Retry.AttemptTrace` | anime/script.js:173-184 | failed attempts followed by one more fetch alternate fetch/wait, start and end with a fetch, and hold one more fetch than waits |
| `Retry.RetryStopsAtFirstOk` | anime/script.js:171-175 | when attempt k is the first OK one within the budget, that response is returned after exactly k + 1 fetches and k waits, and the last effect is the final fetch |
| `Retry.RetryExhausts` | anime/script.js:176-184 | when every attempt of a positive budget fails, exactly `retries` fetches and `retries - 1` waits of `delay` happen and the call throws the max-retries error |
| `Retry.RetryWithoutBudget` | anime/script.js:170-186 | with `retries <= 0` nothing is fetched, nothing is awaited, and the call resolves with `undefined` instead of throwing |
| `Retry.RetryOutcomes` | anime/script.js:169-187 | for every network: a response is returned iff some attempt within the budget is OK, the call throws iff the budget is positive and all of it fails, and at most `retries` fetches occur |
| `Js.Truthy` | anime/script.js:152 | ToBoolean: a value is falsy exactly when it is `undefined`, `null`, `false`, 0 or the empty string; arrays and objects are truthy |
| `Js.Or` | anime/src/search.jsx:12 | JavaScript's logical or yields `a` when `a` is truthy, otherwise `b`; it is truthy iff either operand is |
| `Js.Member` | anime/src/search.jsx:12 | reading a property throws a TypeError exactly on `undefined` and `null`; an object yields its field or `undefined` |
| `Cache.Storage.GetItem` | anime/script.js:151 | `getItem` returns `null` exactly for a missing key, otherwise the stored string |
| `Cache.Storage.SetItem` | anime/script.js:159 | `setItem` overwrites one key and leaves every other key as it was |
| `Cache.Hit` | anime/script.js:152 | `if (cachedData)` holds exactly when the key is stored with a non-empty string |
| `Cache.Received` | anime/script.js:156-157 | reading the body succeeds exactly when WithRetries returned a response whose body parses, and yields the parsed body |
| `Cache.Settle` | anime/script.js:155-165 | after WithRetries settles, either the data is stored under `key` and returned, or the call resolves with `undefined` and the store is unchanged |
| `Cache.Request` | anime/script.js:150-167 | the behaviour of one CacheRequest call: effects occur iff the key misses, only a hit can reject (with a SyntaxError), and the store changes only on a miss that resolves with data, at `key`, to the data's serialisation |
| `Cache.CacheRequest` | anime/script.js:150-167 | the method's result, new store and effects equal `Request` on the old store, with at most 3 fetches |
| `Cache.CacheHit` | anime/script.js:151-153 | a truthy cached string is parsed and returned (or the call rejects when it is not JSON), with no fetch and the store unchanged |
| `Cache.EmptyEntryIsMiss` | anime/script.js:152 | an empty cached string is falsy: the call goes to the network and its first effect is a fetch of `url` |
| `Cache.CacheMissStores` | anime/script.js:156-162 | on a miss whose first OK attempt k has a body parsing to `data`, `data` is returned, stored under `key` as its serialisation, every other key is unchanged, after k + 1 fetches |
| `Cache.CacheMissExhausted` | anime/script.js:155-165 | on a miss where all three attempts fail, the call resolves with `undefined`, the store is unchanged, after 3 fetches and 2 waits of 1000 ms |
| `Cache.CacheMissUnparsable` | anime/script.js:157-165 | on a miss whose OK body is not JSON, the call resolves with `undefined` and the store is unchanged |
| `Cache.SettleWithoutBudget` | anime/script.js:156-165 | had WithRetries a budget of zero or less, reading the missing response would throw a TypeError that the catch turns into `undefined`, with no store write |
| `Cache.CacheRequestFrame` | anime/script.js:150-167 | for every store and network: at most 3 fetches and 2 waits, effects occur iff the key misses, and the store changes only at `key` and only when data is returned |
| `Cache.CacheRemembers` | anime/script.js:151-162 | once a call has resolved with data, the next call for the same key, whatever its url and network, returns the same data with no fetch and the store unchanged |
| `Debounce.ReplaySnoc` | anime/src/search.jsx:26-30 | a call replaces the pending arguments; a timer expiry empties the slot and runs the function once with what it held, or not at all |
| `Debounce.PendingIsLastCall` | anime/src/search.jsx:28-29 | the pending arguments are those of the last event when it was a call, and nothing after a timer expiry |
| `Debounce.BurstFiresLast` | anime/src/search.jsx:24-31 | a burst of calls followed by the timer expiring runs the function exactly once, with the most recent call's arguments |
| `Debounce.ReplayFromCalls` | anime/src/search.jsx:26-30 | the function runs at most once per timer expiry and only with arguments some call supplied |
| `Debounce.Debouncer.Invoke` | anime/src/search.jsx:26-30 | calling the debounced function leaves exactly the new arguments pending and runs nothing |
| `Debounce.Debouncer.Elapse` | anime/src/search.jsx:29 | when the timer expires, the pending arguments (if any) are run once and the slot is emptied |
| `Search.SearchUrl` | anime/src/search.jsx:5-7 | the string passed to `fetch` is the fixed prefix, the query unencoded, then `&limit=5` |
| `Search.SearchUrlInjective` | anime/src/search.jsx:6 | different queries produce different strings passed to `fetch` (the query can be read back from that string) |
| `Search.FetchAnime` | anime/src/search.jsx:4-13 | a non-OK status throws "Failed to fetch anime data"; a successful result came from an OK response and is always truthy |
| `Search.FetchAnimeData` | anime/src/search.jsx:11-12 | on an OK response carrying an object, the result is its `data` field when truthy and `[]` when missing or falsy |
| `Search.ResultsView` | anime/src/search.jsx:98-106 | falsy data renders nothing, `[]` renders "No results found", a non-empty array renders one card per element in order |
| `Search.FetchedDataIsListed` | anime/src/search.jsx:98-104 | whatever fetchAnime resolves with reaches the list branch, never the empty one |
| `Search.TitleLabel` | anime/src/search.jsx:125-127 | the heading has at most 33 characters and starts with the first min(30, length) characters of the title; a longer title gets exactly 33 ending in "..." |
| `Search.TitleLabelUnchanged` | anime/src/search.jsx:125-127 | the heading equals the title iff the title has at most 30 characters or is a 33-character title already ending in "..." |
| `Search.TitleLabelIdempotent` | anime/src/search.jsx:125-127 | truncating a heading again changes nothing |
| `Search.EpisodesShown` | anime/src/search.jsx:129 | the shown value is always truthy, equals the episode count iff that count is truthy, and is "N/A" otherwise |
| `Search.EpisodesCases` | anime/src/search.jsx:129 | an absent field, `null` and 0 show "N/A"; any non-zero count shows itself |
| `Search.TrimStart` | anime/src/search.jsx:42 | the first non-space index: everything before it is space |
| `Search.TrimEnd` | anime/src/search.jsx:42 | the end of the last non-space run: everything after it is space |
| `Search.Trim` | anime/src/search.jsx:42 | `.trim()` yields a piece of the input no longer than it, with no space at either end, and leaves an input without spaces unchanged |
| `Search.TrimShape` | anime/src/search.jsx:42 | `trim` keeps one contiguous run of the input, cuts only spaces, and leaves no space at either end |
| `Search.TrimEmpty` | anime/src/search.jsx:42-46 | the trimmed value is empty iff the typed value is all spaces |
| `Search.TrimIdempotent` | anime/src/search.jsx:42 | trimming twice is trimming once |
| `Search.SearchBox.SearchAnime` | anime/src/search.jsx:33-38 | an empty query changes nothing; any other query is stored, triggers one refetch, and opens the dropdown |
| `Search.SearchBox.ApplyInput` | anime/src/search.jsx:41-46 | the debounced callback stores the trimmed value and closes the dropdown exactly when it is empty, otherwise leaving it as it was |
| `Search.SearchBox.HandleSearch` | anime/src/search.jsx:40-48 | a change event only replaces the debouncer's pending value; the component state is untouched |
| `Search.SearchBox.TimerExpires` | anime/src/search.jsx:24-47 | when the debounce timer expires, the latest typed value is applied as by `ApplyInput`, or nothing changes when none is pending |

## Left out

- The DOM and template code of `InitCarousel`, `DisplayTrending`, `DisplayRecentAnime` and `DisplayUpcomingAnime` (anime/script.js:3-148): HTML string building with nothing to prove.
- The Swiper carousel and the resize listener (anime/script.js:26-42): a foreign library and browser events.
- The four fire-and-forget startup calls (anime/script.js:189-192) and concurrent requests for the same key: their behaviour is event-loop interleaving, and each call is modelled as running alone.
- The commented-out search code at anime/script.js:194-271: it is dead.
- `console.error` logging of failed attempts and of swallowed errors: output only, with no effect on results.
- Real time: `setTimeout` delays appear as `Sleep(ms)` effects and the debounce quiet period as an explicit timer-expiry event.
- The JSON parser and serialiser: a codec parameter stands in for them.
- React's `useQuery` caching, the `useEffect` that refetches and opens the dropdown when the query changes, the click-outside listener (anime/src/search.jsx:50-70), and the loading/error lines of the dropdown; `refetches` counts the `refetch()` calls `searchAnime` makes.
- `anime/src/index.js`: it only mounts the React root.
- Numbers are integers: NaN, fractions and a non-integer `retries` are not modelled, nor the clamping of negative `setTimeout` delays to 0.
- Strings are sequences of Unicode scalar values, while JavaScript's `length` and `substring` count UTF-16 code units; titles outside the Basic Multilingual Plane are counted differently.
- Search.SearchBox.SearchAnime: takes a string query, so the only falsy query is the empty string.
- Js.Member: models own data properties and `length` only; prototype members (methods) read as `undefined`.
- Search.ResultsView: a truthy non-array `data` is shown as `NotAList` instead of the source's `length` comparison and `map` call.
- Cache.Storage.SetItem: never fails, whereas `localStorage.setItem` (anime/script.js:159) can throw `QuotaExceededError`; inside the `try` that would make the call resolve with `undefined` and store nothing, so `Cache.CacheMissStores` holds only while the store accepts the write.
- Cache.Storage.GetItem: never fails, whereas reading `localStorage` (anime/script.js:151) can throw `SecurityError` outside the `try`, which would make the call reject.
- Search.SearchUrlInjective: is about the string passed to `fetch`; how `fetch` parses that string into a URL (percent-encoding spaces, cutting at `#`) is not modelled, and two queries can reach the same request.
- The ListCard's image and `key` expressions (anime/src/search.jsx:113-121): they only pass fields through.
