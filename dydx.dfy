/**
 * The dYdX adapter: the indexer's `markets` object keyed by ticker
 * (`BTC-USD`), every allowed ticker sent, next funding read in seconds,
 * milliseconds or as a date string, with an 8-hour fallback.
 */
module Dydx {
  import opened Wrappers
  import opened Strings
  import opened JsValues
  import opened JsMaps
  import Timestamps
  import Base

  /** A market entry; `nextFundingTimeOfObject` is `m.nextFunding?.time`. */
  datatype Market = Market(nextFundingRate: JsValue, fundingRate: JsValue, openInterest: JsValue,
                           nextFundingTime: JsValue, nextFundingTimeOfObject: JsValue, nextFundingAt: JsValue)

  const EightHoursMs: real := 28800000.0

  /** `nextFundingTime ?? nextFunding?.time ?? nextFundingAt ?? null`. */
  function NextFundingField(m: Market): JsValue {
    Coalesce(m.nextFundingTime, Coalesce(m.nextFundingTimeOfObject, Coalesce(m.nextFundingAt, Null)))
  }

  /** `_resolveNextFundingMs(m)`: a number below 10^12 is seconds (zero and
      negatives included), a larger one milliseconds; a string is read with
      `Date.parse`; anything else, or an unparsable date, gives `now` + 8 h. */
  function ResolveNextFundingMs(m: Market, now: nat): (r: real)
    ensures var t := NextFundingField(m);
      && (IsNullish(t) ==> r == now as real + EightHoursMs)
      && (t.Num? && t.n < Timestamps.Threshold ==> r == t.n * 1000.0)
      && (t.Num? && t.n >= Timestamps.Threshold ==> r == t.n)
      && (t.Text? && t.asDate.Some? ==> r == t.asDate.value)
      && (t.Text? && t.asDate.None? ==> r == now as real + EightHoursMs)
      && (t.Other? ==> r == now as real + EightHoursMs)
  {
    match NextFundingField(m)
    case Num(n) => Timestamps.FromSeconds(n)
    case Text(_, asDate) => asDate.GetOr(now as real + EightHoursMs)
    case _ => now as real + EightHoursMs
  }

  /** The first present field wins even when a later one would also resolve. */
  lemma FirstPresentFieldWins(m: Market, now: nat)
    requires m.nextFundingTime.Other?
    requires m.nextFundingAt.Num?
    ensures ResolveNextFundingMs(m, now) == now as real + EightHoursMs
  {
  }

  /** `_extractFundingRate(m)`: `nextFundingRate` whenever it is not undefined
      (a non-numeric value gives 0, with no fall-through), else `fundingRate`, else 0. */
  function ExtractFundingRate(m: Market): (r: real)
    ensures !m.nextFundingRate.Undefined? ==> r == ToNum(m.nextFundingRate, 0.0)
    ensures m.nextFundingRate.Undefined? ==> r == ToNum(m.fundingRate, 0.0)
  {
    if !m.nextFundingRate.Undefined? then ToNum(m.nextFundingRate, 0.0) else ToNum(m.fundingRate, 0.0)
  }

  /** Unlike `??`, the test is `!== undefined`: a `null` next rate is 0, not a fall-through. */
  lemma NullNextRateIsZero(m: Market)
    requires m.nextFundingRate.Null?
    ensures ExtractFundingRate(m) == 0.0
  {
  }

  /** The update for one market. */
  function DataOf(m: Market, now: nat): (d: Base.FundingData)
    ensures d.rate == ExtractFundingRate(m) && d.next == ResolveNextFundingMs(m, now)
    ensures d.liquidity.Liquidity? && d.liquidity.long == d.liquidity.short
    ensures NumberOf(m.openInterest).Some? ==> d.liquidity.long + d.liquidity.short == NumberOf(m.openInterest).value
    ensures NumberOf(m.openInterest).None? ==> d.liquidity.long == 1000000.0
    ensures d.fees == Base.Fees(0.0002, 0.0005)
  {
    var liquidity := match NumberOf(m.openInterest)
      case Some(oi) => Base.Liquidity(oi * 0.5, oi * 0.5)
      case None => Base.Liquidity(1000000.0, 1000000.0);
    Base.FundingData(ExtractFundingRate(m), ResolveNextFundingMs(m, now), liquidity, Base.Fees(0.0002, 0.0005))
  }

  /** `String(symbol).split('-')[0].toUpperCase()`. */
  function PairOf(ticker: string): string {
    Upper(BeforeFirst(ticker, '-'))
  }

  /** A ticker with a '-' starts, once upper-cased, with its pair and a '-', so
      the per-pair lookup finds it; a ticker without '-' is its own pair. */
  lemma PairIsTickerPrefix(ticker: string)
    ensures '-' in ticker ==> StartsWith(Upper(ticker), PairOf(ticker) + "-")
    ensures '-' !in ticker ==> PairOf(ticker) == Upper(ticker)
  {
    var b := BeforeFirst(ticker, '-');
    BeforeFirstIsPrefix(ticker, '-');
    if '-' in ticker {
      var u := Upper(ticker);
      assert u[..|b| + 1] == Upper(b) + "-" by {
        forall k | 0 <= k < |b| + 1 ensures u[..|b| + 1][k] == (Upper(b) + "-")[k] {
          if k < |b| { assert ticker[k] == b[k]; }
        }
      }
    }
  }

  /** Every key of a listing has an entry (`Object.entries`). */
  predicate Keyed(ms: JsMap<Market>) {
    forall k :: k in ms.keys ==> k in ms.values
  }

  /** A listing: tickers in key order, each with its entry. */
  type Listing = ms: JsMap<Market> | Keyed(ms) witness JsMap([], map[])

  /** The `markets` field: not an object, `null` (which passes the shape check
      and then fails in the caller), or an object in key order. */
  datatype MarketsField = NotAnObject | NullMarkets | Markets(markets: Listing)

  /** The response: not an object, or an object with its `markets` field. */
  datatype Response = NotAnObjectBody | Body(markets: MarketsField)

  /** The in-memory cache; `data` holds null until a listing is fetched. */
  datatype MarketsCache = MarketsCache(ts: nat, data: Option<Listing>)

  predicate CacheHit(c: MarketsCache, now: nat, ttl: real) {
    c.data.Some? && ((now - c.ts) as real) < ttl
  }

  /** What `fetchAllMarkets()` returns: a listing, `null`, or an error. */
  function Served(c: MarketsCache, now: nat, ttl: real, fetched: Result<Response, string>): (r: Result<Option<Listing>, string>)
    ensures CacheHit(c, now, ttl) ==> r == Ok(c.data)
    ensures !CacheHit(c, now, ttl) ==> (r.Err? <==> fetched.Err? || fetched.value.NotAnObjectBody? || fetched.value.markets.NotAnObject?)
    ensures !CacheHit(c, now, ttl) && r.Ok? ==> (r.value.None? <==> fetched.value.markets.NullMarkets?)
  {
    if CacheHit(c, now, ttl) then Ok(c.data)
    else if fetched.Err? then Err(fetched.error)
    else match fetched.value
      case NotAnObjectBody => Err("[dYdX] Unexpected markets response shape")
      case Body(NotAnObject) => Err("[dYdX] Unexpected markets response shape")
      case Body(NullMarkets) => Ok(None)
      case Body(Markets(ms)) => Ok(Some(ms))
  }

  predicate Sends(allowed: set<string>, ticker: string) {
    PairOf(ticker) != "" && PairOf(ticker) in allowed
  }

  /** The `collectAndSend` loop's updates over the first `n` entries. */
  function Plan(ms: Listing, allowed: set<string>, now: nat, n: nat): seq<Base.Item>
    requires n <= |ms.keys|
  {
    if n == 0 then []
    else
      var k := ms.keys[n - 1];
      Plan(ms, allowed, now, n - 1) + (if Sends(allowed, k) then [Base.Item(PairOf(k), DataOf(ms.values[k], now))] else [])
  }

  ghost predicate ItemFrom(ms: Listing, allowed: set<string>, now: nat, n: nat, it: Base.Item)
    requires n <= |ms.keys|
  {
    exists i :: 0 <= i < n && Sends(allowed, ms.keys[i]) && it == Base.Item(PairOf(ms.keys[i]), DataOf(ms.values[ms.keys[i]], now))
  }

  /** Every update is an allowed ticker's own market data. */
  lemma {:induction false} PlanSound(ms: Listing, allowed: set<string>, now: nat, n: nat)
    requires n <= |ms.keys|
    ensures forall j :: 0 <= j < |Plan(ms, allowed, now, n)| ==> ItemFrom(ms, allowed, now, n, Plan(ms, allowed, now, n)[j])
  {
    if n > 0 {
      PlanSound(ms, allowed, now, n - 1);
      var pre := Plan(ms, allowed, now, n - 1);
      var r := Plan(ms, allowed, now, n);
      forall j | 0 <= j < |r| ensures ItemFrom(ms, allowed, now, n, r[j]) {
        if j < |pre| {
          assert r[j] == pre[j] && ItemFrom(ms, allowed, now, n - 1, pre[j]);
        } else {
          var k := ms.keys[n - 1];
          assert Sends(allowed, k) && r[j] == Base.Item(PairOf(k), DataOf(ms.values[k], now));
        }
      }
    }
  }

  /** Every allowed ticker is sent. */
  lemma {:induction false} PlanComplete(ms: Listing, allowed: set<string>, now: nat, n: nat, i: int)
    requires 0 <= i < n <= |ms.keys|
    requires Sends(allowed, ms.keys[i])
    ensures Base.Item(PairOf(ms.keys[i]), DataOf(ms.values[ms.keys[i]], now)) in Plan(ms, allowed, now, n)
  {
    if i < n - 1 {
      PlanComplete(ms, allowed, now, n - 1, i);
    }
  }

  /** `Object.keys(markets).find(k => k.toUpperCase().startsWith(PAIR + '-'))`. */
  function FindKey(keys: seq<string>, prefix: string): (r: Option<nat>)
    ensures r.Some? ==> (r.value < |keys| && StartsWith(Upper(keys[r.value]), prefix) &&
      forall j :: 0 <= j < r.value ==> !StartsWith(Upper(keys[j]), prefix))
    ensures r.None? ==> forall j :: 0 <= j < |keys| ==> !StartsWith(Upper(keys[j]), prefix)
    decreases |keys|
  {
    if |keys| == 0 then None
    else if StartsWith(Upper(keys[0]), prefix) then Some(0)
    else
      var r := FindKey(keys[1..], prefix);
      assert forall j :: 1 <= j < |keys| ==> keys[1..][j - 1] == keys[j];
      if r.None? then None else Some(r.value + 1)
  }

  class DydxCollector {
    const base: Base.Collector
    const allowedPairs: set<string>
    const cacheTtl: real
    var cache: MarketsCache

    constructor(b: Base.Collector, optionPairs: Option<seq<string>>, allowedEnv: Option<string>, ttl: real)
      ensures base == b && cacheTtl == ttl && cache == MarketsCache(0, None)
      ensures allowedPairs == Base.ParseAllowedPairs(optionPairs.GetOr(b.cfg.pairs), allowedEnv)
    {
      base := b;
      allowedPairs := Base.ParseAllowedPairs(optionPairs.GetOr(b.cfg.pairs), allowedEnv);
      cacheTtl := ttl;
      cache := MarketsCache(0, None);
    }

    /** `fetchAllMarkets()` at clock reading `now`: a fresh cache is served,
        otherwise a response that passes the shape check replaces the cache
        (a `null` listing included). */
    method FetchAllMarkets(now: nat, fetched: Result<Response, string>) returns (r: Result<Option<Listing>, string>)
      modifies this
      ensures r == Served(old(cache), now, cacheTtl, fetched)
      ensures if r.Ok? && !CacheHit(old(cache), now, cacheTtl) then cache == MarketsCache(now, r.value)
        else cache == old(cache)
    {
      if cache.data.Some? && ((now - cache.ts) as real) < cacheTtl {
        return Ok(cache.data);
      }
      if fetched.Err? {
        return Err(fetched.error);
      }
      match fetched.value {
        case NotAnObjectBody =>
          return Err("[dYdX] Unexpected markets response shape");
        case Body(NotAnObject) =>
          return Err("[dYdX] Unexpected markets response shape");
        case Body(NullMarkets) =>
          cache := MarketsCache(now, None);
          return Ok(None);
        case Body(Markets(ms)) =>
          cache := MarketsCache(now, Some(ms));
          return Ok(Some(ms));
      }
    }

    /** `collectAndSend()`. A `null` listing fails in `Object.entries`. */
    method CollectAndSend(fetched: Result<Response, string>, now: nat,
                          clock: nat -> nat, deliver: nat -> nat -> Result<string, string>)
      returns (report: Base.Report)
      modifies this, base
      ensures var s := Served(old(cache), now, cacheTtl, fetched);
        report.CollectFailed? <==> s.Err? || s.value.None?
      ensures report.CollectFailed? ==> base.lastSent == old(base.lastSent)
      ensures !report.CollectFailed? ==> (
        var ms := Served(old(cache), now, cacheTtl, fetched).value.value;
        var plan := Plan(ms, allowedPairs, now, |ms.keys|);
        report.Sent? && report.sent == |plan| &&
        (report.outcomes, base.lastSent) == Base.Batch(base.dex, base.cfg, old(base.lastSent), plan, clock, deliver))
      ensures var s := Served(old(cache), now, cacheTtl, fetched);
        if s.Ok? && !CacheHit(old(cache), now, cacheTtl) then cache == MarketsCache(now, s.value) else cache == old(cache)
    {
      var markets := FetchAllMarkets(now, fetched);
      if markets.Err? {
        return Base.CollectFailed(markets.error);
      }
      if markets.value.None? {
        return Base.CollectFailed("TypeError: Cannot convert undefined or null to object");
      }
      var ms := markets.value.value;
      var plan := Plan(ms, allowedPairs, now, |ms.keys|);
      var sent, outcomes := base.SendBatch(plan, clock, deliver);
      report := Base.Sent(sent, outcomes);
    }

    /** `collectFundingData(pair)`: the first ticker starting with `PAIR-`,
        compared upper-cased; the allowed pairs are not consulted. */
    method CollectFundingData(pair: string, fetched: Result<Response, string>, now: nat)
      returns (r: Result<Base.FundingData, string>)
      modifies this
      ensures var s := Served(old(cache), now, cacheTtl, fetched);
        r.Err? <==> s.Err? || s.value.None? || FindKey(s.value.value.keys, Upper(pair) + "-").None?
      ensures r.Ok? ==> (
        var ms := Served(old(cache), now, cacheTtl, fetched).value.value;
        var found := FindKey(ms.keys, Upper(pair) + "-");
        found.Some? && r.value == DataOf(ms.values[ms.keys[found.value]], now))
      ensures var s := Served(old(cache), now, cacheTtl, fetched);
        if s.Ok? && !CacheHit(old(cache), now, cacheTtl) then cache == MarketsCache(now, s.value) else cache == old(cache)
    {
      var markets := FetchAllMarkets(now, fetched);
      if markets.Err? {
        return Err(markets.error);
      }
      if markets.value.None? {
        return Err("TypeError: Cannot convert undefined or null to object");
      }
      var ms := markets.value.value;
      var found := FindKey(ms.keys, Upper(pair) + "-");
      if found.None? {
        return Err("[dYdX] Market introuvable pour " + pair);
      }
      r := Ok(DataOf(ms.values[ms.keys[found.value]], now));
    }
  }
}
