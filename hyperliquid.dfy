/**
 * The Hyperliquid adapter: one `metaAndAssetCtxs` request lists every asset
 * with its context; the allowed assets are sent with an 8-hour horizon and a
 * 30/70 split of the open interest.
 */
module Hyperliquid {
  import opened Wrappers
  import opened Strings
  import opened JsValues
  import Base

  /** An asset context; a missing context (`ctxs[i] || {}`) has both fields Undefined. */
  datatype Ctx = Ctx(funding: JsValue, openInterest: JsValue)

  /** The `meta` element: asset names from `universe` or `assets`, each
      `String(x?.name || '')`. */
  datatype Meta = Meta(universe: Option<seq<string>>, assets: Option<seq<string>>)

  /** The response: not an array, an array of fewer than two elements, or
      `[meta, ctxs]` with `ctxs` an array or not. */
  datatype Response = NotAnArray | TooShort | MetaAndCtxs(meta: Meta, ctxs: Option<seq<Ctx>>)

  /** The names and contexts of one listing, index by index. */
  datatype Assets = Assets(names: seq<string>, ctxs: seq<Ctx>)

  /** A listing that passed the length check. */
  type Listing = l: Assets | |l.names| == |l.ctxs| witness Assets([], [])

  function NamesOf(meta: Meta): seq<string> {
    if meta.universe.Some? then meta.universe.value
    else if meta.assets.Some? then meta.assets.value
    else []
  }

  /** The shape checks of `fetchMetaAndCtxs`. */
  function ParseListing(json: Response): (r: Result<Listing, string>)
    ensures r.Ok? <==> json.MetaAndCtxs? && json.ctxs.Some? && |NamesOf(json.meta)| == |json.ctxs.value|
    ensures r.Ok? ==> r.value == Assets(NamesOf(json.meta), json.ctxs.value)
  {
    if json.MetaAndCtxs? && json.ctxs.Some? && |NamesOf(json.meta)| == |json.ctxs.value| then
      var l: Listing := Assets(NamesOf(json.meta), json.ctxs.value);
      Ok(l)
    else if json.MetaAndCtxs? then Err("[Hyperliquid] meta and ctxs length mismatch or names missing")
    else Err("[Hyperliquid] Unexpected response shape (expected [meta, assetCtxs])")
  }

  /** The in-memory cache; the names are null until the first successful fetch. */
  datatype Cache = Cache(ts: nat, listing: Option<Listing>)

  /** Used only when the TTL is positive, a listing is cached and it is younger than the TTL. */
  predicate CacheHit(c: Cache, now: nat, ttl: real) {
    ttl > 0.0 && c.listing.Some? && ((now - c.ts) as real) < ttl
  }

  /** What `fetchMetaAndCtxs()` returns from cache `c` at clock reading `now`. */
  function Served(c: Cache, now: nat, ttl: real, fetched: Result<Response, string>): (r: Result<Listing, string>)
    ensures CacheHit(c, now, ttl) ==> r == Ok(c.listing.value)
    ensures !CacheHit(c, now, ttl) ==> (r.Ok? <==> fetched.Ok? && ParseListing(fetched.value).Ok?)
  {
    if CacheHit(c, now, ttl) then Ok(c.listing.value)
    else if fetched.Err? then Err(fetched.error)
    else ParseListing(fetched.value)
  }

  lemma ZeroTtlAlwaysRefetches(c: Cache, now: nat)
    ensures !CacheHit(c, now, 0.0)
  {
  }

  /** `_extractFunding`: a finite `ctx.funding`, else 0. */
  function FundingOf(ctx: Ctx): real {
    ToNum(ctx.funding, 0.0)
  }

  const EightHoursMs: real := 28800000.0

  /** The update for one asset: long 30 % and short 70 % of a finite open
      interest, else one million each; fixed fees. */
  function DataOf(ctx: Ctx, now: nat): (d: Base.FundingData)
    ensures d.rate == FundingOf(ctx) && d.next == now as real + EightHoursMs
    ensures d.fees == Base.Fees(-0.00005, 0.0003)
    ensures NumberOf(ctx.openInterest).Some? ==> (
      d.liquidity.Liquidity? && d.liquidity.long + d.liquidity.short == NumberOf(ctx.openInterest).value &&
      7.0 * d.liquidity.long == 3.0 * d.liquidity.short)
    ensures NumberOf(ctx.openInterest).None? ==> d.liquidity == Base.Liquidity(1000000.0, 1000000.0)
  {
    var liquidity := match NumberOf(ctx.openInterest)
      case Some(oi) => Base.Liquidity(oi * 0.3, oi * 0.7)
      case None => Base.Liquidity(1000000.0, 1000000.0);
    Base.FundingData(FundingOf(ctx), now as real + EightHoursMs, liquidity, Base.Fees(-0.00005, 0.0003))
  }

  /** Asset `i` is sent when its upper-cased name is non-empty and allowed. */
  predicate SentAt(l: Listing, allowed: set<string>, i: int)
    requires 0 <= i < |l.names|
  {
    Upper(l.names[i]) != "" && Upper(l.names[i]) in allowed
  }

  function ItemAt(l: Listing, i: int, now: nat): Base.Item
    requires 0 <= i < |l.names|
  {
    Base.Item(Upper(l.names[i]), DataOf(l.ctxs[i], now))
  }

  /** The updates of the `collectAndSend` loop over the first `n` assets. */
  function Plan(l: Listing, allowed: set<string>, now: nat, n: nat): seq<Base.Item>
    requires n <= |l.names|
  {
    if n == 0 then []
    else Plan(l, allowed, now, n - 1) + (if SentAt(l, allowed, n - 1) then [ItemAt(l, n - 1, now)] else [])
  }

  ghost predicate ItemFrom(l: Listing, allowed: set<string>, now: nat, n: nat, it: Base.Item)
    requires n <= |l.names|
  {
    exists i :: 0 <= i < n && SentAt(l, allowed, i) && it == ItemAt(l, i, now)
  }

  /** Every update is for an allowed asset, paired with its own context. */
  lemma {:induction false} PlanSound(l: Listing, allowed: set<string>, now: nat, n: nat)
    requires n <= |l.names|
    ensures forall k :: 0 <= k < |Plan(l, allowed, now, n)| ==> ItemFrom(l, allowed, now, n, Plan(l, allowed, now, n)[k])
  {
    if n > 0 {
      PlanSound(l, allowed, now, n - 1);
      var pre := Plan(l, allowed, now, n - 1);
      var r := Plan(l, allowed, now, n);
      forall k | 0 <= k < |r| ensures ItemFrom(l, allowed, now, n, r[k]) {
        if k < |pre| {
          assert r[k] == pre[k] && ItemFrom(l, allowed, now, n - 1, pre[k]);
        } else {
          assert SentAt(l, allowed, n - 1) && r[k] == ItemAt(l, n - 1, now);
        }
      }
    }
  }

  /** Every allowed asset is sent. */
  lemma {:induction false} PlanComplete(l: Listing, allowed: set<string>, now: nat, n: nat, i: int)
    requires 0 <= i < n <= |l.names|
    requires SentAt(l, allowed, i)
    ensures ItemAt(l, i, now) in Plan(l, allowed, now, n)
  {
    if i < n - 1 {
      PlanComplete(l, allowed, now, n - 1, i);
    }
  }

  /** `names.findIndex(n => String(n || '').toUpperCase() === wanted)`. */
  function FindName(names: seq<string>, wanted: string): (r: Option<nat>)
    ensures r.Some? ==> (r.value < |names| && Upper(names[r.value]) == wanted &&
      forall j :: 0 <= j < r.value ==> Upper(names[j]) != wanted)
    ensures r.None? ==> forall j :: 0 <= j < |names| ==> Upper(names[j]) != wanted
    decreases |names|
  {
    if |names| == 0 then None
    else if Upper(names[0]) == wanted then Some(0)
    else
      var r := FindName(names[1..], wanted);
      assert forall j :: 1 <= j < |names| ==> names[1..][j - 1] == names[j];
      if r.None? then None else Some(r.value + 1)
  }

  class HyperliquidCollector {
    const base: Base.Collector
    const allowedPairs: set<string>
    const cacheTtl: real
    var cache: Cache

    constructor(b: Base.Collector, optionPairs: Option<seq<string>>, allowedEnv: Option<string>, ttl: real)
      ensures base == b && cacheTtl == ttl && cache == Cache(0, None)
      ensures allowedPairs == Base.ParseAllowedPairs(optionPairs.GetOr(b.cfg.pairs), allowedEnv)
    {
      base := b;
      allowedPairs := Base.ParseAllowedPairs(optionPairs.GetOr(b.cfg.pairs), allowedEnv);
      cacheTtl := ttl;
      cache := Cache(0, None);
    }

    /** `fetchMetaAndCtxs()` at clock reading `now`; `fetched` is the outcome of the retried request. */
    method FetchMetaAndCtxs(now: nat, fetched: Result<Response, string>) returns (r: Result<Listing, string>)
      modifies this
      ensures r == Served(old(cache), now, cacheTtl, fetched)
      ensures if r.Ok? && !CacheHit(old(cache), now, cacheTtl) then cache == Cache(now, Some(r.value))
        else cache == old(cache)
    {
      if cacheTtl > 0.0 && cache.listing.Some? && ((now - cache.ts) as real) < cacheTtl {
        return Ok(cache.listing.value);
      }
      if fetched.Err? {
        return Err(fetched.error);
      }
      r := ParseListing(fetched.value);
      if r.Ok? {
        cache := Cache(now, Some(r.value));
      }
    }

    /** `collectAndSend()`. */
    method CollectAndSend(fetched: Result<Response, string>, now: nat,
                          clock: nat -> nat, deliver: nat -> nat -> Result<string, string>)
      returns (report: Base.Report)
      modifies this, base
      ensures report.CollectFailed? <==> Served(old(cache), now, cacheTtl, fetched).Err?
      ensures report.CollectFailed? ==> base.lastSent == old(base.lastSent)
      ensures !report.CollectFailed? ==> (
        var l := Served(old(cache), now, cacheTtl, fetched).value;
        var plan := Plan(l, allowedPairs, now, |l.names|);
        report.Sent? && report.sent == |plan| &&
        (report.outcomes, base.lastSent) == Base.Batch(base.dex, base.cfg, old(base.lastSent), plan, clock, deliver))
      ensures var s := Served(old(cache), now, cacheTtl, fetched);
        if s.Ok? && !CacheHit(old(cache), now, cacheTtl) then cache == Cache(now, Some(s.value)) else cache == old(cache)
    {
      var listing := FetchMetaAndCtxs(now, fetched);
      if listing.Err? {
        return Base.CollectFailed(listing.error);
      }
      var l := listing.value;
      var plan := Plan(l, allowedPairs, now, |l.names|);
      var sent, outcomes := base.SendBatch(plan, clock, deliver);
      report := Base.Sent(sent, outcomes);
    }

    /** `collectFundingData(pair)`: the first asset whose upper-cased name is
        the upper-cased pair; the allowed pairs are not consulted. */
    method CollectFundingData(pair: string, fetched: Result<Response, string>, now: nat)
      returns (r: Result<Base.FundingData, string>)
      modifies this
      ensures var s := Served(old(cache), now, cacheTtl, fetched);
        r.Err? <==> s.Err? || FindName(s.value.names, Upper(pair)).None?
      ensures r.Ok? ==> (
        var l := Served(old(cache), now, cacheTtl, fetched).value;
        var found := FindName(l.names, Upper(pair));
        found.Some? && r.value == DataOf(l.ctxs[found.value], now))
      ensures var s := Served(old(cache), now, cacheTtl, fetched);
        if s.Ok? && !CacheHit(old(cache), now, cacheTtl) then cache == Cache(now, Some(s.value)) else cache == old(cache)
    {
      var listing := FetchMetaAndCtxs(now, fetched);
      if listing.Err? {
        return Err(listing.error);
      }
      var l := listing.value;
      var idx := FindName(l.names, Upper(pair));
      if idx.None? {
        return Err("[Hyperliquid] Asset introuvable pour " + Upper(pair));
      }
      r := Ok(DataOf(l.ctxs[idx.value], now));
    }
  }
}
