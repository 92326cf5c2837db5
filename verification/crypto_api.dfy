/** The price client of `src/crypto_api.py`: a per-symbol cache with
    time-based expiry in front of the upstream price endpoint, and a throttle
    that sleeps before a call made too soon after the last successful one.

    The clock, the sleep and the HTTP request are not part of the model: the
    caller passes the time `now` read at the start of the call and the reply the
    endpoint would give, and the result records whether a sleep happened and
    which asset id was requested. */
module CryptoApi {
  import opened Wrappers
  import opened Text

  /** The decoded JSON body: asset id to currency code to amount. */
  type Payload = map<string, map<string, real>>

  /** A cached reply and the time it was fetched at. */
  datatype Entry = Entry(fetchedAt: real, payload: Payload)

  /** The client's state: the cache keyed by the symbol exactly as given, and
      the time of the last successful upstream call. */
  datatype Api = Api(cache: map<string, Entry>, lastApiCall: real)

  /** What the upstream endpoint answers: a decoded body, or a request error
      (transport failure or a non-success status) with its text. */
  datatype FetchReply = Fetched(payload: Payload) | FetchFailed(reason: string)

  /** The outcome of one `get_price` call: the returned payload or the raised
      error's text, the new state, the sleep requested before the upstream
      call (if any) and the asset id sent upstream (if any). */
  datatype Lookup = Lookup(result: Result<Payload, string>, api: Api, pause: Option<real>, request: Option<string>)

  /** The state of a freshly constructed client: nothing cached, no call yet. */
  const Empty: Api := Api(map[], 0.0)

  /** Prefix of the error raised when the upstream request fails. */
  const FetchErrorPrefix: string := "Error fetching crypto price: "

  /** The error `time.sleep` raises for a negative duration. */
  const NegativeSleepError: string := "sleep length must be non-negative"

  /** A cached entry is served while it is younger than the cache duration. */
  predicate IsFresh(e: Entry, now: real, cacheDuration: real) {
    now - e.fetchedAt < cacheDuration
  }

  /** The cache can answer for `symbol` at time `now`. */
  predicate CacheHit(a: Api, symbol: string, now: real, cacheDuration: real) {
    symbol in a.cache && IsFresh(a.cache[symbol], now, cacheDuration)
  }

  /** A call at `now` comes too soon after the last successful upstream call. */
  predicate Throttled(a: Api, now: real, rateLimitDelay: real) {
    now - a.lastApiCall < rateLimitDelay
  }

  /** Every symbol other than `symbol` has the same cache entry (or lack of one) in both states. */
  ghost predicate OthersUnchanged(before: Api, after: Api, symbol: string) {
    forall k :: k != symbol ==>
      (k in after.cache <==> k in before.cache) &&
      (k in before.cache ==> after.cache[k] == before.cache[k])
  }

  /** One upstream call was made by this lookup. */
  function Fetches(l: Lookup): nat {
    if l.request.Some? then 1 else 0
  }

  /** `get_price(symbol, cache_duration, rate_limit_delay)` called at time `now`,
      with `reply` the answer the endpoint would give if asked. */
  function GetPrice(a: Api, symbol: string, cacheDuration: real, rateLimitDelay: real,
                    now: real, reply: FetchReply): (l: Lookup)
    // A fresh entry is returned as it is, without a sleep, a request or a state change.
    ensures CacheHit(a, symbol, now, cacheDuration) ==>
      l == Lookup(Success(a.cache[symbol].payload), a, None, None)
    // Otherwise a sleep of the whole delay happens exactly when the call is throttled.
    ensures !CacheHit(a, symbol, now, cacheDuration) ==>
      (l.pause.Some? <==> Throttled(a, now, rateLimitDelay)) &&
      (l.pause.Some? ==> l.pause.value == rateLimitDelay)
    // Unless the sleep itself fails, the lower-cased symbol is requested upstream.
    ensures !CacheHit(a, symbol, now, cacheDuration) ==>
      (l.request.None? <==> l.pause.Some? && rateLimitDelay < 0.0)
    ensures l.request.Some? ==> l.request.value == Lower(symbol)
    // A successful request overwrites that one entry with the time read before
    // any sleep, records the call time, and returns the body as received.
    ensures l.request.Some? && l.result.Success? ==>
      reply == Fetched(l.result.value) &&
      l.api.cache == a.cache[symbol := Entry(now, l.result.value)] &&
      l.api.lastApiCall == now
    ensures l.request.Some? && reply.Fetched? ==> l.result.Success?
    ensures l.request.Some? && reply.FetchFailed? ==>
      l.result == Failure(FetchErrorPrefix + reply.reason)
    // A sleep that raises fails the call before anything is requested or stored.
    ensures !CacheHit(a, symbol, now, cacheDuration) && l.request.None? ==>
      l.result == Failure(NegativeSleepError) && l.api == a
    // A failure changes nothing: a stale entry stays in place.
    ensures l.result.Failure? ==> l.api == a
    ensures OthersUnchanged(a, l.api, symbol)
  {
    if CacheHit(a, symbol, now, cacheDuration) then
      Lookup(Success(a.cache[symbol].payload), a, None, None)
    else
      var pause := if Throttled(a, now, rateLimitDelay) then Some(rateLimitDelay) else None;
      if pause.Some? && rateLimitDelay < 0.0 then
        Lookup(Failure(NegativeSleepError), a, pause, None)
      else
        var request := Some(Lower(symbol));
        match reply
        case Fetched(data) =>
          Lookup(Success(data), Api(a.cache[symbol := Entry(now, data)], now), pause, request)
        case FetchFailed(reason) =>
          Lookup(Failure(FetchErrorPrefix + reason), a, pause, request)
  }

  /** `clear_cache()`: forgets every cached entry but not the last call time. */
  function ClearCache(a: Api): (c: Api)
    ensures forall symbol :: symbol !in c.cache
    ensures c.lastApiCall == a.lastApiCall
  {
    a.(cache := map[])
  }

  /** The first call of a new client always goes upstream, and sleeps only when
      the clock reads less than the delay since time zero. */
  lemma FirstCallFetches(symbol: string, cacheDuration: real, rateLimitDelay: real,
                         now: real, reply: FetchReply)
    requires rateLimitDelay >= 0.0
    ensures var l := GetPrice(Empty, symbol, cacheDuration, rateLimitDelay, now, reply);
      l.request == Some(Lower(symbol)) && (l.pause.Some? <==> now < rateLimitDelay)
  {
  }

  /** After `clear_cache` every call goes upstream, and the throttle decision is
      the same as it would have been without clearing. */
  lemma ClearedCacheFetches(a: Api, symbol: string, cacheDuration: real, rateLimitDelay: real,
                            now: real, reply: FetchReply)
    requires rateLimitDelay >= 0.0
    ensures var l := GetPrice(ClearCache(a), symbol, cacheDuration, rateLimitDelay, now, reply);
      l.request == Some(Lower(symbol)) && (l.pause.Some? <==> Throttled(a, now, rateLimitDelay))
  {
  }

  /** Two calls for one symbol, the first successful and the second less than
      the cache duration later, go upstream at most once between them; when the
      first went upstream, the second returns what it fetched. */
  lemma AtMostOneFetch(a: Api, symbol: string, cacheDuration: real, rateLimitDelay: real,
                       t1: real, r1: FetchReply, t2: real, r2: FetchReply)
    requires GetPrice(a, symbol, cacheDuration, rateLimitDelay, t1, r1).result.Success?
    requires t1 <= t2 < t1 + cacheDuration
    ensures var l1 := GetPrice(a, symbol, cacheDuration, rateLimitDelay, t1, r1);
      var l2 := GetPrice(l1.api, symbol, cacheDuration, rateLimitDelay, t2, r2);
      Fetches(l1) + Fetches(l2) <= 1 &&
      (l1.request.Some? ==> l2.result == l1.result && l2.api == l1.api)
  {
  }

  /** Cache keys are case-sensitive while the request is lower-cased: after a
      successful fetch for `first`, a different symbol not cached before still
      goes upstream, even when both lower-case to the same asset id. */
  lemma SymbolsAreCaseSensitive(a: Api, first: string, second: string,
                                cacheDuration: real, rateLimitDelay: real,
                                t1: real, r1: FetchReply, t2: real, r2: FetchReply)
    requires first != second && second !in a.cache
    requires rateLimitDelay >= 0.0
    requires GetPrice(a, first, cacheDuration, rateLimitDelay, t1, r1).request.Some?
    requires GetPrice(a, first, cacheDuration, rateLimitDelay, t1, r1).result.Success?
    ensures var l1 := GetPrice(a, first, cacheDuration, rateLimitDelay, t1, r1);
      GetPrice(l1.api, second, cacheDuration, rateLimitDelay, t2, r2).request == Some(Lower(second))
  {
  }

  /** The concrete case: after "bitcoin" has been fetched into a new client,
      a call for "Bitcoin" finds no entry and asks upstream for "bitcoin" again. */
  lemma BitcoinCapitalised(cacheDuration: real, rateLimitDelay: real, data: Payload,
                           t1: real, t2: real, r2: FetchReply)
    requires rateLimitDelay >= 0.0
    ensures var l1 := GetPrice(Empty, "bitcoin", cacheDuration, rateLimitDelay, t1, Fetched(data));
      l1.request == Some("bitcoin") &&
      "Bitcoin" !in l1.api.cache &&
      GetPrice(l1.api, "Bitcoin", cacheDuration, rateLimitDelay, t2, r2).request == Some("bitcoin")
  {
    LowerOfLowercase("bitcoin");
    assert "Bitcoin"[0] != "bitcoin"[0];
    assert Lower("Bitcoin") == Lower("bitcoin");
  }

  /** The throttle compares clock readings taken before any sleep: a call that
      does go upstream without sleeping was read at least the delay after the
      previous successful call was read. */
  lemma ReadTimesSpaced(a: Api, s1: string, s2: string, cacheDuration: real, rateLimitDelay: real,
                        t1: real, r1: FetchReply, t2: real, r2: FetchReply)
    requires GetPrice(a, s1, cacheDuration, rateLimitDelay, t1, r1).request.Some?
    requires GetPrice(a, s1, cacheDuration, rateLimitDelay, t1, r1).result.Success?
    ensures var l1 := GetPrice(a, s1, cacheDuration, rateLimitDelay, t1, r1);
      var l2 := GetPrice(l1.api, s2, cacheDuration, rateLimitDelay, t2, r2);
      l2.request.Some? && l2.pause.None? ==> t2 - t1 >= rateLimitDelay
  {
  }

  /** Because the recorded call time is the reading taken before the sleep, two
      upstream requests can still be sent closer together than the delay: with a
      one-second delay, a call read at 0.5 s sleeps and is sent at 1.5 s, and a
      call for another symbol read at 1.6 s is sent at once. */
  lemma ThrottleGapExample(data: Payload)
    ensures var l1 := GetPrice(Empty, "bitcoin", 300.0, 1.0, 0.5, Fetched(data));
      var l2 := GetPrice(l1.api, "ethereum", 300.0, 1.0, 1.6, Fetched(data));
      l1.pause == Some(1.0) && l1.request.Some? &&
      l2.pause.None? && l2.request.Some? &&
      1.6 - (0.5 + l1.pause.value) < 1.0
  {
  }
}
