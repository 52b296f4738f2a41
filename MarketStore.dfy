/** The market store of `src/store/marketStore.ts`: the quote table, the watchlist,
    the `error` and `loading` flags, the browser's localStorage cache, and the
    realtime scheduler, whose timers are a table of live timers on a virtual clock. */
module MarketStore {
  import opened Wrappers
  import opened Text
  import opened Payload
  import opened QuoteClient
  import Watchlist

  const UpdateEvery: nat := 60000
  const Stagger: nat := 12000
  const RateLimitWords := "rate limit"

  /** What a timer runs: the recurring batch over a list of symbols, or one fetch. */
  datatype TimerKind = Recurring(symbols: seq<string>) | FetchOnce(symbol: string)

  /** A live timer: its delay (the period, for a recurring one), what it runs, and
      the virtual time at which it was armed. */
  datatype Timer = Timer(delay: nat, kind: TimerKind, armedAt: int)

  /** The one-shot timers of one batch armed at `now`, with ids from `firstId`:
      one per symbol, in list order, each 12 seconds after the previous one. */
  function Batch(symbols: seq<string>, firstId: nat, now: int): (m: map<nat, Timer>)
    ensures forall id :: id in m <==> firstId <= id < firstId + |symbols|
    ensures forall id :: id in m ==> m[id].kind.FetchOnce? && m[id].armedAt == now
    ensures forall i :: 0 <= i < |symbols| ==>
      (firstId + i in m && m[firstId + i] == Timer(i * Stagger, FetchOnce(symbols[i]), now))
  {
    if symbols == [] then map[]
    else
      var n := |symbols| - 1;
      var init := symbols[..n];
      var m := Batch(init, firstId, now);
      assert forall i :: 0 <= i < n ==> init[i] == symbols[i];
      m[firstId + n := Timer(n * Stagger, FetchOnce(symbols[n]), now)]
  }

  /** Fetches of one batch that are five or more places apart are due at least a full
      minute apart, so no minute holds more than five fetches of one batch. */
  lemma BatchSpansRateWindow(symbols: seq<string>, firstId: nat, now: int, i: nat, j: nat)
    requires i + 5 <= j < |symbols|
    ensures var m := Batch(symbols, firstId, now);
      m[firstId + j].armedAt + m[firstId + j].delay - (m[firstId + i].armedAt + m[firstId + i].delay) >= UpdateEvery
  {
    var m := Batch(symbols, firstId, now);
    assert m[firstId + j] == Timer(j * Stagger, FetchOnce(symbols[j]), now);
    assert m[firstId + i] == Timer(i * Stagger, FetchOnce(symbols[i]), now);
  }

  /** The ids of the live recurring timers. */
  function Intervals(timers: map<nat, Timer>): set<nat> {
    set id | id in timers && timers[id].kind.Recurring?
  }

  /** The handle held in `updateInterval` names the one recurring timer, if any, that is live. */
  predicate OneDriver(timers: map<nat, Timer>, handle: Option<nat>) {
    (handle.Some? ==> handle.value in timers && timers[handle.value].kind.Recurring?) &&
    (forall id :: id in timers && timers[id].kind.Recurring? ==> handle == Some(id))
  }

  /** Under that invariant at most one recurring timer is live, and one is exactly when the handle is set. */
  lemma AtMostOneDriver(timers: map<nat, Timer>, handle: Option<nat>)
    requires OneDriver(timers, handle)
    ensures |Intervals(timers)| <= 1
    ensures Intervals(timers) == (if handle.Some? then {handle.value} else {})
  {
    var ids := Intervals(timers);
    if handle.Some? {
      assert ids == {handle.value};
    } else {
      assert ids == {};
    }
  }

  /** The timers left once `clearInterval` has been called on the handle, if any. */
  function Cleared(timers: map<nat, Timer>, handle: Option<nat>): (m: map<nat, Timer>)
    ensures handle.Some? ==> handle.value !in m
    ensures forall id :: id in m <==> id in timers && handle != Some(id)
    ensures forall id :: id in m ==> m[id] == timers[id]
  {
    if handle.Some? then timers - {handle.value} else timers
  }

  /** Clearing the handle's timer leaves no recurring timer behind. */
  lemma ClearedHasNoDriver(timers: map<nat, Timer>, handle: Option<nat>)
    requires OneDriver(timers, handle)
    ensures OneDriver(Cleared(timers, handle), None)
  {
  }

  /** Arming a batch of one-shot timers under fresh ids leaves the driver as it was. */
  lemma BatchKeepsDriver(timers: map<nat, Timer>, handle: Option<nat>, symbols: seq<string>, firstId: nat, now: int)
    requires OneDriver(timers, handle) && forall id :: id in timers ==> id < firstId
    ensures OneDriver(timers + Batch(symbols, firstId, now), handle)
  {
    var m := timers + Batch(symbols, firstId, now);
    forall id | id in m && m[id].kind.Recurring? ensures handle == Some(id) {
      assert id !in Batch(symbols, firstId, now);
    }
  }

  /** With no recurring timer live, arming one makes it the driver. */
  lemma ArmDriver(timers: map<nat, Timer>, id: nat, t: Timer)
    requires OneDriver(timers, None) && t.kind.Recurring?
    ensures OneDriver(timers[id := t], Some(id))
  {
  }

  function FailureMessage(symbol: string): string {
    "Failed to fetch quote for " + symbol
  }

  /** The only error `getQuote` can throw does not mention a rate limit, so the store
      always records it: the rate-limit exemption of `fetchQuoteForSymbol` never applies. */
  lemma GetQuoteErrorIsRecorded(env: Env, cache: map<string, StockQuote>, symbol: string, reply: Reply)
    requires GetQuote(env, cache, symbol, reply).Err?
    ensures !Contains(GetQuote(env, cache, symbol, reply).error.Message(), RateLimitWords)
  {
    assert GetQuote(env, cache, symbol, reply).error.Message() == "Invalid time value";
    assert 'r' !in "Invalid time value";
    FirstCharAbsent("Invalid time value", RateLimitWords);
  }

  class Store {
    var quotes: map<string, StockQuote>
    var watchlist: seq<string>
    var loading: bool
    var error: Option<string>
    var cache: map<string, StockQuote>
    var updateInterval: Option<nat>
    var timers: map<nat, Timer>
    var nextTimerId: nat

    /** Timer ids are fresh, and `updateInterval` names the one live recurring timer. */
    ghost predicate Valid()
      reads this
    {
      && (forall id :: id in timers ==> id < nextTimerId)
      && OneDriver(timers, updateInterval)
      && Watchlist.NoDuplicates(watchlist)
    }

    /** The initial store, over whatever localStorage already holds. */
    constructor (storage: map<string, StockQuote>)
      ensures Valid()
      ensures quotes == map[] && watchlist == [] && !loading && error == None
      ensures cache == storage && updateInterval == None && timers == map[]
    {
      quotes, watchlist, loading, error := map[], [], false, None;
      cache, updateInterval, timers, nextTimerId := storage, None, map[], 1;
    }

    /** `fetchQuoteForSymbol(symbol)`, given how its request settled. Whatever
        `getQuote` returns, placeholder included, is saved to the cache and the table. */
    method FetchQuoteForSymbol(env: Env, symbol: string, reply: Reply)
      modifies this`cache, this`quotes, this`error
      ensures var r := GetQuote(env, old(cache), symbol, reply);
        if r.Ok? then
          cache == old(cache)[CacheKey(symbol) := r.value] && quotes == old(quotes)[symbol := r.value]
          && cache[CacheKey(symbol)] == quotes[symbol] && error == None
        else
          cache == old(cache) && quotes == old(quotes) &&
          error == (if Contains(r.error.Message(), RateLimitWords) then old(error) else Some(FailureMessage(symbol)))
      ensures GetQuote(env, old(cache), symbol, reply).Err? ==> error == Some(FailureMessage(symbol))
    {
      var r := GetQuote(env, cache, symbol, reply);
      match r
      case Ok(q) =>
        cache := cache[CacheKey(symbol) := q];
        quotes := quotes[symbol := q];
        error := None;
      case Err(e) =>
        GetQuoteErrorIsRecorded(env, cache, symbol, reply);
        if !Contains(e.Message(), RateLimitWords) {
          error := Some(FailureMessage(symbol));
        }
    }

    /** `fetchQuote(symbol)`: clears the error, fetches, and always ends not loading. */
    method FetchQuote(env: Env, symbol: string, reply: Reply)
      modifies this`cache, this`quotes, this`error, this`loading
      ensures var r := GetQuote(env, old(cache), symbol, reply);
        (r.Ok? ==> cache == old(cache)[CacheKey(symbol) := r.value] && quotes == old(quotes)[symbol := r.value])
        && (r.Err? ==> cache == old(cache) && quotes == old(quotes))
        && error == (if r.Ok? then None else Some(FailureMessage(symbol)))
      ensures !loading
    {
      loading, error := true, None;
      FetchQuoteForSymbol(env, symbol, reply);
      loading := false;
    }

    /** `addToWatchlist(symbol)`. */
    method AddToWatchlist(symbol: string)
      requires Valid()
      modifies this`watchlist
      ensures Valid()
      ensures watchlist == Watchlist.Add(old(watchlist), symbol)
    {
      watchlist := Watchlist.Add(watchlist, symbol);
    }

    /** `removeFromWatchlist(symbol)`. */
    method RemoveFromWatchlist(symbol: string)
      requires Valid()
      modifies this`watchlist
      ensures Valid()
      ensures watchlist == Watchlist.Remove(old(watchlist), symbol)
    {
      Watchlist.RemoveKeepsDistinct(watchlist, symbol);
      watchlist := Watchlist.Remove(watchlist, symbol);
    }

    /** The `forEach` that arms one staggered fetch per symbol. */
    method ScheduleBatch(symbols: seq<string>, now: int)
      requires forall id :: id in timers ==> id < nextTimerId
      modifies this`timers, this`nextTimerId
      ensures timers == old(timers) + Batch(symbols, old(nextTimerId), now)
      ensures nextTimerId == old(nextTimerId) + |symbols|
      ensures forall id :: id in timers ==> id < nextTimerId
    {
      var index := 0;
      while index < |symbols|
        invariant 0 <= index <= |symbols|
        invariant nextTimerId == old(nextTimerId) + index
        invariant timers == old(timers) + Batch(symbols[..index], old(nextTimerId), now)
      {
        BatchGrows(symbols, index, old(nextTimerId), now);
        timers := timers[nextTimerId := Timer(index * Stagger, FetchOnce(symbols[index]), now)];
        nextTimerId := nextTimerId + 1;
        index := index + 1;
      }
      assert symbols[..index] == symbols;
    }

    /** `startRealtimeUpdates(symbols)` at time `now`: clears the running interval,
        arms the first batch, then one recurring timer every minute. */
    method StartRealtimeUpdates(symbols: seq<string>, now: int)
      requires Valid()
      modifies this`timers, this`nextTimerId, this`updateInterval
      ensures Valid()
      ensures var first := old(nextTimerId);
        timers == (Cleared(old(timers), old(updateInterval)) + Batch(symbols, first, now))
                  [first + |symbols| := Timer(UpdateEvery, Recurring(symbols), now)]
        && updateInterval == Some(first + |symbols|) && nextTimerId == first + |symbols| + 1
      ensures Intervals(timers) == {updateInterval.value}
    {
      ClearedHasNoDriver(timers, updateInterval);
      timers := Cleared(timers, updateInterval);
      ghost var cleared := timers;
      ScheduleBatch(symbols, now);
      ghost var armed := timers;
      assert armed == cleared + Batch(symbols, old(nextTimerId), now);
      BatchKeepsDriver(cleared, None, symbols, old(nextTimerId), now);
      var id := nextTimerId;
      var driver := Timer(UpdateEvery, Recurring(symbols), now);
      ArmDriver(timers, id, driver);
      timers := timers[id := driver];
      assert timers == armed[old(nextTimerId) + |symbols| := driver];
      nextTimerId := nextTimerId + 1;
      updateInterval := Some(id);
      AtMostOneDriver(timers, updateInterval);
    }

    /** `stopRealtimeUpdates()`: clears the interval and the handle, if any; the
        one-shot fetches already armed stay armed. */
    method StopRealtimeUpdates()
      requires Valid()
      modifies this`timers, this`updateInterval
      ensures Valid()
      ensures updateInterval == None && Intervals(timers) == {}
      ensures timers == Cleared(old(timers), old(updateInterval))
      ensures forall id :: id in old(timers) && old(timers)[id].kind.FetchOnce? ==> id in timers && timers[id] == old(timers)[id]
    {
      ClearedHasNoDriver(timers, updateInterval);
      timers := Cleared(timers, updateInterval);
      updateInterval := None;
      AtMostOneDriver(timers, updateInterval);
    }

    /** The recurring timer fires at time `now`, a whole number of minutes after it
        was armed: it arms the next batch and stays live. */
    method FireInterval(id: nat, now: int)
      requires Valid() && id in timers && timers[id].kind.Recurring?
      requires now > timers[id].armedAt && (now - timers[id].armedAt) % UpdateEvery == 0
      modifies this`timers, this`nextTimerId
      ensures Valid()
      ensures timers == old(timers) + Batch(old(timers)[id].kind.symbols, old(nextTimerId), now)
      ensures nextTimerId == old(nextTimerId) + |old(timers)[id].kind.symbols|
    {
      ghost var before := timers;
      ScheduleBatch(timers[id].kind.symbols, now);
      BatchKeepsDriver(before, updateInterval, before[id].kind.symbols, old(nextTimerId), now);
    }

    /** A one-shot timer fires when its delay has passed: it is gone, and the fetch runs. */
    method FireTimeout(id: nat, now: int, env: Env, reply: Reply)
      requires Valid() && id in timers && timers[id].kind.FetchOnce?
      requires now == timers[id].armedAt + timers[id].delay
      modifies this`timers, this`cache, this`quotes, this`error
      ensures Valid()
      ensures timers == old(timers) - {id}
      ensures var symbol := old(timers)[id].kind.symbol;
        var r := GetQuote(env, old(cache), symbol, reply);
        (r.Ok? ==> cache == old(cache)[CacheKey(symbol) := r.value] && quotes == old(quotes)[symbol := r.value] && error == None)
        && (r.Err? ==> cache == old(cache) && quotes == old(quotes) && error == Some(FailureMessage(symbol)))
    {
      var symbol := timers[id].kind.symbol;
      timers := timers - {id};
      FetchQuoteForSymbol(env, symbol, reply);
    }
  }

  /** One more symbol adds one more timer at the end of the batch. */
  lemma BatchGrows(symbols: seq<string>, index: nat, firstId: nat, now: int)
    requires index < |symbols|
    ensures Batch(symbols[..index + 1], firstId, now)
            == Batch(symbols[..index], firstId, now)[firstId + index := Timer(index * Stagger, FetchOnce(symbols[index]), now)]
  {
    assert symbols[..index + 1][..index] == symbols[..index];
  }
}
