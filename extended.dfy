/**
 * The Extended adapter: markets named `<BASE>-<QUOTE>`, every allowed market
 * sent (no per-base choice), next funding read in seconds or milliseconds
 * with an 8-hour fallback, and half the open interest on each side.
 */
module Extended {
  import opened Wrappers
  import opened Strings
  import opened JsValues
  import Timestamps
  import Base

  /** `_baseFromName(name)`: the upper-cased text before the first '-'. */
  function BaseFromName(name: string): string {
    Upper(BeforeFirst(name, '-'))
  }

  /** The base is upper case without '-', and upper-casing the name first changes nothing. */
  lemma BaseFromNameProperties(name: string)
    ensures IsUpper(BaseFromName(name)) && '-' !in BaseFromName(name)
    ensures BaseFromName(Upper(name)) == BaseFromName(name)
    ensures '-' !in name ==> BaseFromName(name) == Upper(name)
  {
    BeforeFirstIsPrefix(name, '-');
    UpperIsUpper(BeforeFirst(name, '-'));
    UpperKeepsChar(BeforeFirst(name, '-'), '-');
    BeforeFirstOfUpper(name, '-');
    BeforeFirstIsPrefix(Upper(name), '-');
    UpperIsUpper(name);
    Base.UpperOfUpper(BeforeFirst(Upper(name), '-')) by {
      assert BeforeFirst(Upper(name), '-') == Upper(BeforeFirst(name, '-'));
    }
  }

  /** `m.marketStats || {}`: absent fields are Undefined. */
  datatype Stats = Stats(fundingRate: JsValue, nextFundingRate: JsValue, nextFundingTime: JsValue, openInterest: JsValue)

  /** A market; `name` is `String(m?.name || '')`. */
  datatype Market = Market(name: string, stats: Stats, fundingRate: JsValue, nextFundingTime: JsValue, openInterest: JsValue)

  const EightHoursMs: real := 28800000.0

  /** `s.nextFundingRate ?? s.nextFundingTime ?? m.nextFundingTime`, coerced with default 0. */
  function RawNext(m: Market): real {
    ToNum(Coalesce(m.stats.nextFundingRate, Coalesce(m.stats.nextFundingTime, m.nextFundingTime)), 0.0)
  }

  /** The update for one market. */
  function DataOf(m: Market, now: nat): (d: Base.FundingData)
    ensures d.rate == ToNum(Coalesce(m.stats.fundingRate, m.fundingRate), 0.0)
    ensures RawNext(m) <= 0.0 ==> d.next == now as real + EightHoursMs
    ensures 0.0 < RawNext(m) < Timestamps.Threshold ==> d.next == RawNext(m) * 1000.0
    ensures RawNext(m) >= Timestamps.Threshold ==> d.next == RawNext(m)
    ensures d.next > 0.0
    ensures d.liquidity.Liquidity? && d.liquidity.long == d.liquidity.short
    ensures var oi := NumberOf(Coalesce(m.stats.openInterest, m.openInterest));
      (oi.Some? ==> d.liquidity.long + d.liquidity.short == oi.value) &&
      (oi.None? ==> d.liquidity.long == 1000000.0)
    ensures d.fees == Base.Fees(0.0002, 0.0005)
  {
    var nf := Timestamps.FromPositiveSeconds(RawNext(m));
    var liquidity := match NumberOf(Coalesce(m.stats.openInterest, m.openInterest))
      case Some(oi) => Base.Liquidity(oi * 0.5, oi * 0.5)
      case None => Base.Liquidity(1000000.0, 1000000.0);
    Base.FundingData(ToNum(Coalesce(m.stats.fundingRate, m.fundingRate), 0.0),
                     if nf > 0.0 then nf else now as real + EightHoursMs,
                     liquidity, Base.Fees(0.0002, 0.0005))
  }

  /** A market's next funding in seconds or in milliseconds gives the same update. */
  lemma SecondsOrMillis(m1: Market, m2: Market, now: nat)
    requires m1.stats == m2.stats && m1.fundingRate == m2.fundingRate && m1.openInterest == m2.openInterest
    requires Timestamps.Threshold <= RawNext(m1) < Timestamps.Threshold * 1000.0
    requires RawNext(m2) == RawNext(m1) / 1000.0
    ensures DataOf(m1, now) == DataOf(m2, now)
  {
    Timestamps.SecondsAndMillisAgree(RawNext(m1));
  }

  /** The markets payload: `json.data` if an array, else `json` if an array, else []. */
  datatype MarketsJson = DataField(data: seq<Market>) | ArrayBody(rows: seq<Market>) | Unshaped

  function RowsOf(json: MarketsJson): seq<Market> {
    match json
    case DataField(data) => data
    case ArrayBody(rows) => rows
    case Unshaped => []
  }

  datatype MarketsCache = MarketsCache(ts: nat, markets: Option<seq<Market>>)

  predicate CacheHit(c: MarketsCache, now: nat, ttl: real) {
    c.markets.Some? && ((now - c.ts) as real) < ttl
  }

  /** What `withRetry(_fetchMarkets)` returns from cache `c`. */
  function Served(c: MarketsCache, now: nat, ttl: real, fetched: Result<MarketsJson, string>): (r: Result<seq<Market>, string>)
    ensures CacheHit(c, now, ttl) ==> r == Ok(c.markets.value)
    ensures !CacheHit(c, now, ttl) ==> r == (if fetched.Ok? then Ok(RowsOf(fetched.value)) else Err(fetched.error))
  {
    if CacheHit(c, now, ttl) then Ok(c.markets.value)
    else if fetched.Err? then Err(fetched.error)
    else Ok(RowsOf(fetched.value))
  }

  /** The pair the send loop files market `m` under. */
  function PairOf(m: Market): string {
    BaseFromName(Upper(m.name))
  }

  predicate Sends(allowed: set<string>, m: Market) {
    PairOf(m) != "" && PairOf(m) in allowed
  }

  /** The `collectAndSend` loop's updates, one per allowed market in order. */
  function Plan(markets: seq<Market>, allowed: set<string>, now: nat): seq<Base.Item>
    decreases |markets|
  {
    if |markets| == 0 then []
    else
      var n := |markets| - 1;
      var m := markets[n];
      Plan(markets[..n], allowed, now) + (if Sends(allowed, m) then [Base.Item(PairOf(m), DataOf(m, now))] else [])
  }

  ghost predicate ItemFrom(markets: seq<Market>, allowed: set<string>, now: nat, it: Base.Item) {
    exists i :: 0 <= i < |markets| && Sends(allowed, markets[i]) && it == Base.Item(PairOf(markets[i]), DataOf(markets[i], now))
  }

  /** Every update is an allowed market's own data. */
  lemma {:induction false} PlanSound(markets: seq<Market>, allowed: set<string>, now: nat)
    ensures forall k :: 0 <= k < |Plan(markets, allowed, now)| ==> ItemFrom(markets, allowed, now, Plan(markets, allowed, now)[k])
    decreases |markets|
  {
    if |markets| > 0 {
      var n := |markets| - 1;
      PlanSound(markets[..n], allowed, now);
      var pre := Plan(markets[..n], allowed, now);
      var r := Plan(markets, allowed, now);
      forall k | 0 <= k < |r| ensures ItemFrom(markets, allowed, now, r[k]) {
        if k < |pre| {
          assert r[k] == pre[k] && ItemFrom(markets[..n], allowed, now, pre[k]);
          var i :| 0 <= i < n && Sends(allowed, markets[..n][i]) &&
            pre[k] == Base.Item(PairOf(markets[..n][i]), DataOf(markets[..n][i], now));
          assert markets[..n][i] == markets[i];
        } else {
          assert Sends(allowed, markets[n]) && r[k] == Base.Item(PairOf(markets[n]), DataOf(markets[n], now));
        }
      }
    }
  }

  /** The number of updates is the number of allowed markets: no market is
      dropped for sharing its base with another. */
  function CountSent(markets: seq<Market>, allowed: set<string>): nat
    decreases |markets|
  {
    if |markets| == 0 then 0
    else CountSent(markets[..|markets| - 1], allowed) + (if Sends(allowed, markets[|markets| - 1]) then 1 else 0)
  }

  lemma {:induction false} PlanSize(markets: seq<Market>, allowed: set<string>, now: nat)
    ensures |Plan(markets, allowed, now)| == CountSent(markets, allowed)
    decreases |markets|
  {
    if |markets| > 0 {
      PlanSize(markets[..|markets| - 1], allowed, now);
    }
  }

  lemma NoDedupPerBase(m1: Market, m2: Market, allowed: set<string>, now: nat)
    requires Sends(allowed, m1) && Sends(allowed, m2) && PairOf(m1) == PairOf(m2)
    ensures Plan([m1, m2], allowed, now) == [Base.Item(PairOf(m1), DataOf(m1, now)), Base.Item(PairOf(m1), DataOf(m2, now))]
  {
    assert [m1, m2][..1] == [m1];
    assert [m1][..0] == [];
    assert Plan([m1], allowed, now) == [Base.Item(PairOf(m1), DataOf(m1, now))];
    assert Plan([m1, m2], allowed, now) == Plan([m1], allowed, now) + [Base.Item(PairOf(m2), DataOf(m2, now))];
  }

  /** `markets.find(x => _baseFromName(x?.name) === want)`. */
  function FindMarket(markets: seq<Market>, want: string): (r: Option<nat>)
    ensures r.Some? ==> (r.value < |markets| && BaseFromName(markets[r.value].name) == want &&
      forall j :: 0 <= j < r.value ==> BaseFromName(markets[j].name) != want)
    ensures r.None? ==> forall j :: 0 <= j < |markets| ==> BaseFromName(markets[j].name) != want
    decreases |markets|
  {
    if |markets| == 0 then None
    else if BaseFromName(markets[0].name) == want then Some(0)
    else
      var r := FindMarket(markets[1..], want);
      assert forall j :: 1 <= j < |markets| ==> markets[1..][j - 1] == markets[j];
      if r.None? then None else Some(r.value + 1)
  }

  class ExtendedCollector {
    const base: Base.Collector
    const allowedPairs: set<string>
    const marketsTtl: real
    var cache: MarketsCache

    constructor(b: Base.Collector, optionPairs: Option<seq<string>>, allowedEnv: Option<string>, ttl: real)
      ensures base == b && marketsTtl == ttl && cache == MarketsCache(0, None)
      ensures allowedPairs == Base.ParseAllowedPairs(optionPairs.GetOr(b.cfg.pairs), allowedEnv)
    {
      base := b;
      allowedPairs := Base.ParseAllowedPairs(optionPairs.GetOr(b.cfg.pairs), allowedEnv);
      marketsTtl := ttl;
      cache := MarketsCache(0, None);
    }

    /** `_fetchMarkets()` under `withRetry`: the cache while fresh, otherwise
        the fetched payload, which replaces the cache. */
    method FetchMarkets(now: nat, fetched: Result<MarketsJson, string>) returns (r: Result<seq<Market>, string>)
      modifies this
      ensures r == Served(old(cache), now, marketsTtl, fetched)
      ensures if r.Ok? && !CacheHit(old(cache), now, marketsTtl) then cache == MarketsCache(now, Some(r.value))
        else cache == old(cache)
    {
      if cache.markets.Some? && ((now - cache.ts) as real) < marketsTtl {
        return Ok(cache.markets.value);
      }
      if fetched.Err? {
        return Err(fetched.error);
      }
      var data := RowsOf(fetched.value);
      cache := MarketsCache(now, Some(data));
      r := Ok(data);
    }

    /** `collectAndSend()`. */
    method CollectAndSend(fetched: Result<MarketsJson, string>, now: nat,
                          clock: nat -> nat, deliver: nat -> nat -> Result<string, string>)
      returns (report: Base.Report)
      modifies this, base
      ensures report.CollectFailed? <==> Served(old(cache), now, marketsTtl, fetched).Err?
      ensures report.CollectFailed? ==> base.lastSent == old(base.lastSent)
      ensures !report.CollectFailed? ==> (
        var plan := Plan(Served(old(cache), now, marketsTtl, fetched).value, allowedPairs, now);
        report.Sent? && report.sent == |plan| &&
        (report.outcomes, base.lastSent) == Base.Batch(base.dex, base.cfg, old(base.lastSent), plan, clock, deliver))
      ensures var s := Served(old(cache), now, marketsTtl, fetched);
        if s.Ok? && !CacheHit(old(cache), now, marketsTtl) then cache == MarketsCache(now, Some(s.value)) else cache == old(cache)
    {
      var markets := FetchMarkets(now, fetched);
      if markets.Err? {
        return Base.CollectFailed(markets.error);
      }
      var plan := Plan(markets.value, allowedPairs, now);
      var sent, outcomes := base.SendBatch(plan, clock, deliver);
      report := Base.Sent(sent, outcomes);
    }

    /** `collectFundingData(pair)`: the first market of base `pair`, allowed or not. */
    method CollectFundingData(pair: string, fetched: Result<MarketsJson, string>, now: nat)
      returns (r: Result<Base.FundingData, string>)
      modifies this
      ensures var s := Served(old(cache), now, marketsTtl, fetched);
        r.Err? <==> s.Err? || FindMarket(s.value, Upper(pair)).None?
      ensures r.Ok? ==> (
        var markets := Served(old(cache), now, marketsTtl, fetched).value;
        var found := FindMarket(markets, Upper(pair));
        found.Some? && r.value == DataOf(markets[found.value], now))
      ensures var s := Served(old(cache), now, marketsTtl, fetched);
        if s.Ok? && !CacheHit(old(cache), now, marketsTtl) then cache == MarketsCache(now, Some(s.value)) else cache == old(cache)
    {
      var markets := FetchMarkets(now, fetched);
      if markets.Err? {
        return Err(markets.error);
      }
      var found := FindMarket(markets.value, Upper(pair));
      if found.None? {
        return Err("[Extended] Market introuvable pour " + Upper(pair));
      }
      r := Ok(DataOf(markets.value[found.value], now));
    }
  }
}
