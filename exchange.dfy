/** The exchange-rate cache: one rate table quoted against USD, refreshed
    from an upstream API when older than the time-to-live, with the old table
    kept when a refresh fails. */
module Exchange {
  import opened Base

  const CacheTtlMs: int := 60 * 1000
  const BaseCurrency: string := "USD"

  /** A cached table of USD-based rates and the time it was fetched. */
  datatype RateCache = RateCache(rates: map<string, real>, timestamp: int)

  /** What the upstream fetch produced: a rate table received at time `at`,
      or a failure (network error or a non-OK response). */
  datatype FetchOutcome = Fetched(rates: map<string, real>, at: int) | FetchFailed

  /** The result of a rate lookup and the cache after it. */
  datatype RateLookup = RateLookup(result: Result<real>, cache: Option<RateCache>)

  /** A table is stale when absent or strictly older than the TTL. */
  predicate IsStale(cache: Option<RateCache>, now: int) {
    cache.None? || now - cache.value.timestamp > CacheTtlMs
  }

  /** The cache after `refreshRates`: a received table replaces the old one
      wholesale; a failed fetch keeps what was there (None means the refresh
      threw because there was nothing to fall back on). */
  function Refreshed(cache: Option<RateCache>, fetch: FetchOutcome): (r: Option<RateCache>)
    ensures fetch.Fetched? ==> r == Some(RateCache(fetch.rates, fetch.at))
    ensures fetch.FetchFailed? ==> r == cache
  {
    match fetch
    case Fetched(rates, at) => Some(RateCache(rates, at))
    case FetchFailed => cache
  }

  /** Rate of a currency against USD as the lookup reads it: USD is 1.0
      whatever the table says; a currency missing from the table reads as 0.0,
      which the lookup rejects exactly like a zero rate. */
  function UsdRate(rates: map<string, real>, currency: string): (r: real)
    ensures currency == BaseCurrency ==> r == 1.0
    ensures currency != BaseCurrency && currency !in rates ==> r == 0.0
    ensures currency != BaseCurrency && currency in rates ==> r == rates[currency]
  {
    if currency == BaseCurrency then 1.0
    else if currency in rates then rates[currency]
    else 0.0
  }

  /** `getLiveRate(from, to)` at time `now` against a cache, with `fetch` the
      outcome the upstream call would have if made. */
  function LiveRate(cache: Option<RateCache>, from: string, to: string, now: int, fetch: FetchOutcome): (r: RateLookup)
    ensures from == to ==> r == RateLookup(Ok(1.0), cache)
    ensures from != to && !IsStale(cache, now) ==> r.cache == cache
    ensures from != to && IsStale(cache, now) ==> r.cache == Refreshed(cache, fetch)
    ensures r.result.Ok? ==> r.result.value != 0.0
    ensures r.result.Ok? && from != to ==>
      && r.cache.Some?
      && UsdRate(r.cache.value.rates, from) != 0.0
      && UsdRate(r.cache.value.rates, to) != 0.0
      && r.result.value == UsdRate(r.cache.value.rates, to) / UsdRate(r.cache.value.rates, from)
    ensures r.result.Err? ==>
      || (r.result.error == RatesUnavailable && r.cache.None? && cache.None? && fetch.FetchFailed?)
      || (r.result.error == RateNotAvailable(from, to) && r.cache.Some?
          && (UsdRate(r.cache.value.rates, from) == 0.0 || UsdRate(r.cache.value.rates, to) == 0.0))
  {
    if from == to then RateLookup(Ok(1.0), cache)
    else
      var current := if IsStale(cache, now) then Refreshed(cache, fetch) else cache;
      if current.None? then RateLookup(Err(RatesUnavailable), current)
      else
        var rateFrom := UsdRate(current.value.rates, from);
        var rateTo := UsdRate(current.value.rates, to);
        if rateFrom == 0.0 || rateTo == 0.0 then RateLookup(Err(RateNotAvailable(from, to)), current)
        else RateLookup(Ok(rateTo / rateFrom), current)
  }

  /** A fresh cache is used as it is: the upstream is not consulted, so any
      fetch outcome gives the same answer. */
  lemma FreshCacheIgnoresFetch(cache: Option<RateCache>, from: string, to: string, now: int, f1: FetchOutcome, f2: FetchOutcome)
    requires !IsStale(cache, now)
    ensures LiveRate(cache, from, to, now, f1) == LiveRate(cache, from, to, now, f2)
  {
  }

  /** The TTL comparison is strict: a table exactly 60000 ms old is still
      fresh, one a millisecond older is stale. */
  lemma TtlBoundary(c: RateCache)
    ensures !IsStale(Some(c), c.timestamp + 60000)
    ensures IsStale(Some(c), c.timestamp + 60001)
  {
  }

  /** After a successful refresh, every lookup within the TTL of the
      response's arrival uses that table. */
  lemma {:induction false} RefreshServesWithinTtl(cache: Option<RateCache>, from: string, to: string, now: int,
                                                  fetch: FetchOutcome, later: int, fetch2: FetchOutcome)
    requires from != to && IsStale(cache, now) && fetch.Fetched?
    requires later - fetch.at <= CacheTtlMs
    ensures LiveRate(cache, from, to, now, fetch).cache == Some(RateCache(fetch.rates, fetch.at))
    ensures LiveRate(Some(RateCache(fetch.rates, fetch.at)), from, to, later, fetch2).cache == Some(RateCache(fetch.rates, fetch.at))
  {
    assert !IsStale(Some(RateCache(fetch.rates, fetch.at)), later);
  }

  /** Cross rates read from one table are reciprocal: converting from A to B
      and back multiplies by exactly 1. */
  lemma {:induction false} CrossRatesReciprocal(c: RateCache, a: string, b: string, now: int, fetch: FetchOutcome)
    requires !IsStale(Some(c), now)
    requires LiveRate(Some(c), a, b, now, fetch).result.Ok?
    ensures LiveRate(Some(c), b, a, now, fetch).result.Ok?
    ensures LiveRate(Some(c), a, b, now, fetch).result.value * LiveRate(Some(c), b, a, now, fetch).result.value == 1.0
  {
    if a != b {
      var x := UsdRate(c.rates, a);
      var y := UsdRate(c.rates, b);
      assert x != 0.0 && y != 0.0;
      assert (y / x) * (x / y) == 1.0;
    }
  }

  /** The shared rate service; `cache` is its one static field. */
  class ExchangeService {
    var cache: Option<RateCache>

    constructor ()
      ensures cache == None
    {
      cache := None;
    }

    /** `refreshRates`: ok is false exactly when the refresh threw. */
    method RefreshRates(fetch: FetchOutcome) returns (ok: bool)
      modifies this
      ensures cache == Refreshed(old(cache), fetch)
      ensures ok == cache.Some?
    {
      match fetch {
        case Fetched(rates, at) =>
          cache := Some(RateCache(rates, at));
        case FetchFailed =>
          // keep the old table if there is one; otherwise the error propagates
      }
      ok := cache.Some?;
    }

    method GetLiveRate(from: string, to: string, now: int, fetch: FetchOutcome) returns (rate: Result<real>)
      modifies this
      ensures RateLookup(rate, cache) == LiveRate(old(cache), from, to, now, fetch)
    {
      if from == to {
        return Ok(1.0);
      }
      if IsStale(cache, now) {
        var ok := RefreshRates(fetch);
        if !ok {
          return Err(RatesUnavailable);
        }
      }
      var rates := cache.value.rates;
      var rateFrom := if from == BaseCurrency then 1.0 else if from in rates then rates[from] else 0.0;
      var rateTo := if to == BaseCurrency then 1.0 else if to in rates then rates[to] else 0.0;
      if rateFrom == 0.0 || rateTo == 0.0 {
        return Err(RateNotAvailable(from, to));
      }
      return Ok(rateTo / rateFrom);
    }
  }
}
