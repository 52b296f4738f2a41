# Market-quote client and store, modelled in Dafny

This project models the data core of a stock-dashboard web application. Two source files make up that core.

- `src/lib/api.ts` is the quote client. It holds a five-calls-per-minute rate gate with a FIFO of deferred requests (`executeRequest`). It classifies provider replies, turning both throttling signals into one rate-limit error (`get`). `getQuote` falls back from a live quote to the cached quote (normalised timestamp) and then to a zero-valued placeholder. `searchStocks`, `getDailyPrices` and `getIntraday` reshape the provider's payloads.
- `src/store/marketStore.ts` is the market store. It holds the quote table, the watchlist, the `loading` and `error` flags and the localStorage cache. It also runs the realtime scheduler: one batch of fetches staggered 12 s apart, then the same batch every 60 s, behind a single interval handle.

Modules:

| file | module | content |
|---|---|---|
| `Wrappers.dfy` | `Wrappers` | `Option`, `Result` |
| `Text.dfy` | `Text` | the JavaScript string operations the core uses: `includes`, `indexOf`, `replace` with a one-character pattern (first occurrence only), `split(c)[0]` |
| `Payload.dfy` | `Payload` | the provider's reply, the client's errors, and `get` |
| `RateGate.dfy` | `RateGate` | `executeRequest` as a state-transition function `Step` and as the imperative class `RateGate` proved against it. Also runs of many calls, and the drain finding with its corrected gate |
| `QuoteClient.dfy` | `QuoteClient` | `getQuote` with its fallback chain, `searchStocks`, `getDailyPrices`, `getIntraday` |
| `Watchlist.dfy` | `Watchlist` | `addToWatchlist` and `removeFromWatchlist` as functions on lists |
| `MarketStore.dfy` | `MarketStore` | the store as a class `Store`. Its fields are those the source mutates, plus the live timers on a virtual clock |

Inputs from outside the program become parameters:

- How an HTTP request settled is a `Reply` value.
- The number parsers `parseFloat`/`parseInt` and `new Date(x).toISOString()` are fields of an `Env` value. `None` stands for `NaN` or for a thrown `RangeError`.
- The current time is a `now: int` of milliseconds, with `nowIso` as its ISO form.
- localStorage is a `map` from `"quote_" + symbol` to the saved quote.

Where the behaviour the code implements differs from the system's design description, the model follows the code:

- `getQuote` is described as total. In the code its cache tier calls `new Date(cached.lastUpdated).toISOString()`, which throws `RangeError: Invalid time value` on an unparseable date. `QuoteClient.GetQuote` returns `Err(InvalidTime)` there, and proves this is its only failure.
- A queued request is described as re-entering admission when drained. In the code (`api.ts:62-66`) it is called directly, so the counter never sees it. See "## Findings" below.
- The cache is described as written only on a successful fetch. `fetchQuoteForSymbol` saves whatever `getQuote` returns, including a cached fallback and the zero placeholder. `Store.FetchQuoteForSymbol` states this.
- `fetchQuoteForSymbol` skips recording errors whose message mentions a rate limit. `getQuote` never lets the rate-limit error out, so that exemption never applies. `MarketStore.GetQuoteErrorIsRecorded` proves it.

## Model

| member | source | states |
|---|---|---|
| `Payload.Throttled` | src/lib/api.ts:83-89 | a rejection is throttled exactly when its HTTP status is 429, and a 2xx body without a `Note` never is |
| `Payload.Get` | src/lib/api.ts:82-93 | a reply yields the rate-limit error exactly when it is throttled (a `Note` containing "API call frequency", or HTTP 429). Any other 2xx body is returned unchanged, and any other rejection is rethrown with its own message |
| `Payload.ThrottleSignalsAgree` | src/lib/api.ts:83-91 | the two throttling signals give the same error, whose message is "API rate limit exceeded" |
| `Text.IndexOf` | src/lib/api.ts:117 | the index of the first occurrence (or the length when there is none): the character sits there, it does not occur before, and the index is the length exactly when the character is absent |
| `Text.RemoveFirst` | src/lib/api.ts:117 | `replace('%', '')` removes only the first `%`: the string is unchanged when there is none. Otherwise it is one shorter, with the prefix before the `%` kept and the rest shifted by one |
| `Text.RemoveFirstCount` | src/lib/api.ts:117 | removal takes exactly one `%` out of the multiset of characters, and nothing when there is none |
| `Text.Before` | src/lib/api.ts:119 | `split('T')[0]` is the longest prefix free of `T`: all of the string when it has none, otherwise it stops at the first `T` |
| `Text.FirstCharAbsent` | src/store/marketStore.ts:36 | a string lacking the pattern's first character does not `include` the pattern |
| `RateGate.Step` | src/lib/api.ts:32-70 | one `executeRequest`, given whether `request()` resolves: a counter within the ceiling stays within it |
| `RateGate.Reset` | src/lib/api.ts:35-39 | a minute or more after the last admitted call the counter restarts at 0 and the window start moves to now; earlier, nothing changes. The queue is never touched |
| `RateGate.ResetAdmits` | src/lib/api.ts:36-39 | a minute after the last admitted call the request runs at once and the counter restarts at 1 |
| `RateGate.SaturatedQueues` | src/lib/api.ts:41-53 | a saturated window appends the request to the queue's tail and changes nothing else |
| `RateGate.AdmittedCounts` | src/lib/api.ts:55-57 | a request runs exactly when the (possibly reset) counter is below 5. It then adds exactly 1 and moves the window start to now |
| `RateGate.DrainsHead` | src/lib/api.ts:59-67 | exactly when a request ran and resolved, the queue was non-empty and headroom remains, the queue's head is started and removed. A rejection of `request()` skips this. The counter is not charged for the started head, and otherwise the queue is untouched |
| `RateGate.RateGate.constructor` | src/lib/api.ts:8-11 | the gate starts with no calls, last call time 0 and an empty queue |
| `RateGate.RateGate.ExecuteRequest` | src/lib/api.ts:32-70 | the imperative gate's new fields and outcome are exactly `Step` of its old fields and of how `request()` settles, and the counter stays within 5 |
| `RateGate.RunKeepsCeiling` | src/lib/api.ts:32-70 | over any sequence of calls the counter never exceeds 5 |
| `RateGate.StepIsFifo` | src/lib/api.ts:42-67 | in one call, the waiting queue plus the request queued now equals the head started now plus the queue afterwards |
| `RateGate.RunIsFifo` | src/lib/api.ts:42-67 | the waiting queue followed by everything queued since equals everything dispatched since followed by what still waits. Queued requests start in arrival order, and none is lost or duplicated |
| `RateGate.BurstInOpenWindow` | src/lib/api.ts:41-57 | N calls at one instant in an open window with c calls used run exactly the first min(N, 5 - c) requests. The rest wait in arrival order, and the counter ends at c + min(N, 5 - c) |
| `RateGate.SaturatedBurst` | src/lib/api.ts:41-53 | in a saturated window, calls arriving before the minute is up run nothing and only extend the queue, in arrival order, whatever is already waiting |
| `RateGate.SpreadInOpenWindow` | src/lib/api.ts:36-57 | N calls in time order within a minute of the last admitted call, with c calls used: exactly the first min(N, 5 - c) run, the counter ends at c + min(N, 5 - c), and the rest are queued in arrival order |
| `RateGate.OpenStep` | src/lib/api.ts:36-57 | one call within a minute of the last admitted one runs, counted and moving the window start, exactly when there is headroom, and otherwise waits at the queue's tail; from an empty queue nothing is drained |
| `RateGate.SpreadQueued` | src/lib/api.ts:41-53 | the part of `SpreadInOpenWindow` about the queue: the calls after the first min(N, 5 - c) are queued, in order |
| `RateGate.SpreadFinal` | src/lib/api.ts:36-57 | the part of `SpreadInOpenWindow` about the counter and the window start |
| `RateGate.SpreadExecuted` | src/lib/api.ts:55-67 | the part of `SpreadRunsFirst` about the provider calls |
| `RateGate.SpreadLeavesRest` | src/lib/api.ts:41-53 | the part of `SpreadRunsFirst` about what waits afterwards |
| `RateGate.SpreadRunsFirst` | src/lib/api.ts:36-67 | the same calls from an empty queue: exactly the first min(N, 5 - c) requests reach the provider, in arrival order |
| `RateGate.BurstAfterIdleMinute` | src/lib/api.ts:35-57 | a minute after the last call, with an empty queue, a burst of N runs exactly the first min(N, 5) and queues the rest in order |
| `RateGate.TenCallsAtOnce` | src/lib/api.ts:32-70 | ten calls at time 0 leave the counter at 5 and the last five requests waiting |
| `RateGate.DrainBypassesCeiling` | src/lib/api.ts:61-66 | with five requests waiting, five calls a minute later, 1 ms apart and each settling before the next, reach the provider nine times within 5 ms |
| `RateGate.OpenCalls` | src/lib/api.ts:36-57 | calls in time order within a minute of the last admitted call, from an empty queue with headroom for all of them, all run at once in arrival order, queue nothing and use up that much headroom |
| `RateGate.TickQueued` | src/lib/api.ts:36-53 | with five calls used and the last at 48 s, a call at 60 s waits in the queue and nothing reaches the provider |
| `RateGate.StaggeredBatchQueuesNextTick` | src/lib/api.ts:36-57 | five calls 12 s apart from time 0 (the staggered batch of `startRealtimeUpdates` for five symbols) all run, and a sixth call at 60 s (the interval's first fetch) is queued, because the window runs from the last admitted call |
| `RateGate.StepCharged` | src/lib/api.ts:61-66 | the corrected step, which charges the drained request to the counter, keeps the counter within 5. The counter grows by exactly the number of provider calls it makes, a call that runs moves the window start to now, and a call that waits leaves it |
| `RateGate.ChargedWithinMinute` | src/lib/api.ts:8 | calls in time order within any one minute make at most 5 provider calls on the corrected gate, from any state within the ceiling |
| `RateGate.ChargedOpenWindow` | src/lib/api.ts:8 | calls in time order within a minute of the last admitted call make no more provider calls on the corrected gate than the headroom left |
| `RateGate.ChargedDrainExample` | src/lib/api.ts:8 | on the calls of `DrainBypassesCeiling`, the corrected gate makes at most 5 provider calls |
| `QuoteClient.TextOr` | src/lib/api.ts:114 | a field with a fallback (`obj[key] || fallback`): a present non-empty field gives its own value, and a missing or empty one gives the fallback. It is empty only when the fallback is |
| `QuoteClient.RealOrZero` | src/lib/api.ts:115-117 | `parseFloat(field)` or 0 is the parsed number, or 0 for a missing or unparseable field |
| `QuoteClient.IntOrZero` | src/lib/api.ts:118 | `parseInt(field)` or 0 is the parsed integer, or 0 for a missing or unparseable field |
| `QuoteClient.LiveQuote` | src/lib/api.ts:106-111 | a live quote exists exactly when `get` succeeded and its "Global Quote" object is present and non-empty, and it is that object. A throttled or failed reply never has one |
| `QuoteClient.ParsedFieldsDefault` | src/lib/api.ts:113-120 | the contract of `ParseQuote`, the object returned from a live quote. For each field of the parsed quote: its parsed value, or 0 when missing or unparseable. The percentage is parsed after its first `%` is removed. A missing or empty symbol falls back to the requested one, and a missing trading day to today's date taken from the current ISO time |
| `QuoteClient.Placeholder` | src/lib/api.ts:135-142 | the placeholder carries the requested symbol, the current ISO time and zeros |
| `QuoteClient.Fallback` | src/lib/api.ts:124-142 | with a cache entry, the cached quote with its timestamp normalised, or `InvalidTime` when the date cannot be normalised. Without one, the placeholder |
| `QuoteClient.GetQuote` | src/lib/api.ts:99-144 | a live quote is parsed, and anything else takes the fallback. The only failure is `InvalidTime` from a cache entry with an unparseable date |
| `QuoteClient.SavedQuoteServesFailure` | src/lib/api.ts:124-131 | after a failure, the quote saved for the symbol comes back with only its timestamp changed |
| `QuoteClient.NoCacheNeverFails` | src/lib/api.ts:134-142 | without a cache entry `getQuote` always succeeds, and a failure yields the requested symbol |
| `QuoteClient.ThrottledLikeMissing` | src/lib/api.ts:106-111 | a throttled reply and a reply without a quote object give the same result |
| `QuoteClient.PercentStripped` | src/lib/api.ts:117 | "1.33%" is parsed as "1.33" |
| `QuoteClient.ExampleFields` | src/lib/api.ts:113-120 | the fields price "175.50", change "2.30" and change percent "1.33%" parse to 175.50, 2.30 and 1.33, with volume 0 and the requested symbol |
| `QuoteClient.ExampleQuote` | src/lib/api.ts:99-120 | a successful reply with those fields makes `getQuote` return that quote |
| `QuoteClient.MatchOf` | src/lib/api.ts:153-158 | each of symbol, name, type and region is present exactly when its keyed field ("1. symbol" to "4. region") is, and is then that field's text |
| `QuoteClient.SearchStocks` | src/lib/api.ts:146-163 | one match per `bestMatches` entry, in order and field by field. Any error, or no list, gives [] |
| `QuoteClient.BarOf` | src/lib/api.ts:178-185 | a bar keeps its entry's date, and reads open, high, low and close from the fields "1. open" to "4. close" with `parseFloat(...) || 0` and the volume from "5. volume" with `parseInt(...) || 0` |
| `QuoteClient.Series` | src/lib/api.ts:173-176 | a series is found exactly when `get` succeeded and the body has it |
| `QuoteClient.GetDailyPrices` | src/lib/api.ts:165-190 | one bar per series entry, in entry order and with the entry's date. No series, or any error, gives [] |
| `QuoteClient.GetIntraday` | src/lib/api.ts:192-213 | one point per entry, with its timestamp and parsed close (0 when missing). No series, or any error, gives [] |
| `Watchlist.Dedup` | src/store/marketStore.ts:72 | `[...new Set(s)]` has no duplicates and exactly the elements of `s` |
| `Watchlist.DedupOfDistinct` | src/store/marketStore.ts:72 | a duplicate-free list is its own set |
| `Watchlist.DedupKeepsFirstOrder` | src/store/marketStore.ts:72 | the set keeps the order of first occurrences |
| `Watchlist.Add` | src/store/marketStore.ts:70-74 | the symbol is in the new list, which has no duplicates and only the old elements plus the symbol. A distinct list is unchanged if it holds the symbol, and otherwise gains it at the tail |
| `Watchlist.AddToDistinct` | src/store/marketStore.ts:72 | on a distinct list the set spread appends the symbol only when it is new |
| `Watchlist.AddIdempotent` | src/store/marketStore.ts:70-74 | adding twice equals adding once |
| `Watchlist.Remove` | src/store/marketStore.ts:76-80 | the symbol is gone, every other element stays with its multiplicity, and a list without the symbol is unchanged |
| `Watchlist.RemoveAppend` | src/store/marketStore.ts:78 | filtering distributes over concatenation, so relative order is kept |
| `Watchlist.RemoveKeepsDistinct` | src/store/marketStore.ts:78 | removing from a distinct list keeps it distinct |
| `Watchlist.RemoveUndoesAdd` | src/store/marketStore.ts:70-80 | on a duplicate-free list (the store's watchlist always is, by `Store.Valid`), removing a symbol just added equals removing it from the original list |
| `MarketStore.Batch` | src/store/marketStore.ts:89-93 | one one-shot fetch per symbol under consecutive ids, the i-th due i × 12000 ms after arming |
| `MarketStore.BatchSpansRateWindow` | src/store/marketStore.ts:89-93 | fetches five or more places apart in a batch are due at least 60000 ms apart |
| `MarketStore.AtMostOneDriver` | src/store/marketStore.ts:19 | with the handle invariant, at most one recurring timer lives, and it is the one the handle names |
| `MarketStore.Cleared` | src/store/marketStore.ts:84-86 | `clearInterval(handle)` removes exactly the handle's timer and keeps every other |
| `MarketStore.ClearedHasNoDriver` | src/store/marketStore.ts:84-86 | after clearing the handle's timer no recurring timer is left |
| `MarketStore.BatchKeepsDriver` | src/store/marketStore.ts:89-93 | arming a batch under fresh ids leaves the recurring driver as it was |
| `MarketStore.ArmDriver` | src/store/marketStore.ts:96-102 | with no driver live, arming a recurring timer makes it the driver |
| `MarketStore.GetQuoteErrorIsRecorded` | src/store/marketStore.ts:35-40 | the only error `getQuote` throws never mentions "rate limit" |
| `MarketStore.Store.constructor` | src/store/marketStore.ts:44-49 | empty quotes and watchlist, not loading, no error, no interval, over the given localStorage. The store invariant holds, including a duplicate-free watchlist |
| `MarketStore.Store.FetchQuoteForSymbol` | src/store/marketStore.ts:21-42 | on success the result is saved to both the cache and the quote table, and the error is cleared. On failure the error is set to "Failed to fetch quote for …" and nothing else changes |
| `MarketStore.Store.FetchQuote` | src/store/marketStore.ts:51-58 | the error is cleared first, then the symbol is fetched, and loading is always false at the end |
| `MarketStore.Store.AddToWatchlist` | src/store/marketStore.ts:70-74 | the watchlist becomes `Watchlist.Add` of the old one, and it stays duplicate-free |
| `MarketStore.Store.RemoveFromWatchlist` | src/store/marketStore.ts:76-80 | the watchlist becomes `Watchlist.Remove` of the old one, and it stays duplicate-free |
| `MarketStore.Store.ScheduleBatch` | src/store/marketStore.ts:89-93 | the loop arms exactly `Batch` under the next free ids |
| `MarketStore.Store.StartRealtimeUpdates` | src/store/marketStore.ts:82-103 | the old interval is cleared, the first batch is armed, and one recurring 60000 ms timer becomes the only driver |
| `MarketStore.Store.StopRealtimeUpdates` | src/store/marketStore.ts:105-110 | the interval is cleared and the handle reset, while armed one-shot fetches stay |
| `MarketStore.Store.FireInterval` | src/store/marketStore.ts:96-102 | each tick of the interval arms a fresh batch and keeps the single driver |
| `MarketStore.Store.FireTimeout` | src/store/marketStore.ts:90-92 | a due one-shot timer is removed and its fetch applied as in `fetchQuoteForSymbol` |

## Left out

- `getNews` and `fetchNews` return fixed mock data or only toggle flags. They are not modelled.
- The authentication store, pages and components are presentation code and are outside this core.
- The axios transport, the API key and the URL are not modelled. A request's outcome is the `Reply` input.
- `parseFloat`, `parseInt` and `Date`'s parsing and formatting are not modelled. They are the abstract `Env` functions, and floating-point numbers are `real`.
- The JSON round trip of the cache (`JSON.stringify`/`JSON.parse`) is taken to be the identity. A malformed stored string, on which `JSON.parse` throws, is not modelled.
- Promise interleaving is not modelled. Each call of the gate settles before the next one arrives, with `request()` resolving or rejecting as its `resolves` input says, and the drained request's own completion is not followed.
- The event loop is not modelled. Timers are a map of live timers on a virtual clock, and `FireInterval`/`FireTimeout` are the callbacks a clock would run when a timer is due.
- `console.error` logging is not modelled.
- `QuoteClient.GetQuote`, `QuoteClient.SearchStocks`, `QuoteClient.GetDailyPrices` and `QuoteClient.GetIntraday` take the `Reply` of a request that has already settled. They are not composed with the rate gate, so a request the gate queues and never drains (the gate has no idle drain, `api.ts:42-53`) is not represented: in the code its `getQuote` stays pending for ever.
- `MarketStore.Store.FetchQuote`: its `ensures !loading` covers only a request that settles. A request queued by the gate and never drained leaves `loading` true in the code.
- `MarketStore.Store.FetchQuoteForSymbol` and `MarketStore.Store.FireTimeout` likewise take a settled `Reply` and do not pass through the gate. With five symbols, the interval's first fetch at 60 s is queued by the gate, because the counter is still at 5 in the window that runs from the last admitted call at 48 s; `RateGate.StaggeredBatchQueuesNextTick` shows this on the gate alone.
- `RateGate.Step`: its own ensures states only the ceiling, and its full behaviour is split across the lemmas `ResetAdmits`, `SaturatedQueues`, `AdmittedCounts` and `DrainsHead`.

## Findings

| source | as written | input that shows it | evidently intended | confidence | as-written member | corrected member |
|---|---|---|---|---|---|---|
| src/lib/api.ts:61-66 | after an admitted request, the head of the queue is started by calling it directly, without incrementing `callsThisMinute`, so drained requests are never counted | ten calls at t = 0 (five run, five wait), then five calls at t = 60000, 60001, 60002, 60003 and 60004, each settling before the next: each of the first four also drains one waiting request, giving nine provider calls within 5 ms under a ceiling of five per minute | a drained request passes through the gate and is charged against the ceiling | not executed | `RateGate.DrainBypassesCeiling` | `RateGate.ChargedWithinMinute` |
