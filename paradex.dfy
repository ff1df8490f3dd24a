/**
 * The Paradex adapter: symbols `<BASE>-<QUOTE>-PERP`, one market per allowed
 * base chosen by quote priority and then open interest, next funding derived
 * from the cached per-market funding period, and the static markets cache.
 */
module Paradex {
  import opened Wrappers
  import opened Strings
  import opened JsValues
  import opened JsMaps
  import Winners
  import Base

  /** `QUOTE_PRIORITY` from `PARADEX_QUOTE_PRIORITY`, by default USD, USDC, USDT. */
  function QuotePriority(env: Option<string>): seq<string> {
    Base.CsvTokens(if env.None? || env.value == "" then "USD,USDC,USDT" else env.value)
  }

  lemma DefaultPriority()
    ensures QuotePriority(None) == ["USD", "USDC", "USDT"]
  {
    assert Join(["USD", "USDC", "USDT"], ',') == "USD,USDC,USDT";
    Base.CsvRoundTrip(["USD", "USDC", "USDT"]);
  }

  /** `const [base, quote] = symbol.split('-')` on the upper-cased symbol; a
      missing quote is "". */
  function BaseOf(symbol: string): string {
    Split(Upper(symbol), '-')[0]
  }

  function QuoteOf(symbol: string): string {
    var parts := Split(Upper(symbol), '-');
    if |parts| > 1 then parts[1] else ""
  }

  /** `_toPairName(symbol)`: the upper-cased text before the first '-'. */
  function ToPairName(symbol: string): (r: string)
    ensures '-' !in r && IsUpper(r) && |r| <= |symbol|
    ensures r == Upper(symbol[..|r|])
    ensures '-' in symbol ==> |r| < |symbol| && symbol[|r|] == '-'
    ensures '-' !in symbol ==> r == Upper(symbol)
  {
    BeforeFirstIsPrefix(symbol, '-');
    UpperKeepsChar(BeforeFirst(symbol, '-'), '-');
    UpperIsUpper(BeforeFirst(symbol, '-'));
    Upper(BeforeFirst(symbol, '-'))
  }

  /** `_toPairName` names the same base the selection groups a symbol under. */
  lemma ToPairNameIsBase(symbol: string)
    ensures ToPairName(symbol) == BaseOf(symbol)
  {
    BeforeFirstOfUpper(symbol, '-');
  }

  /** A `markets/summary` row; `symbol` is `String(row?.symbol || '')`. */
  datatype SummaryRow = SummaryRow(symbol: string, fundingRate: JsValue, futureFundingRate: JsValue, openInterest: JsValue)

  /** A `markets` row: `symbol` and `chainSymbol` are `m.symbol` and
      `m.chain_details.symbol` as strings, "" when absent. */
  datatype StaticRow = StaticRow(symbol: string, chainSymbol: string, fundingPeriodHours: JsValue, feeMaker: JsValue, feeTaker: JsValue)
  datatype Static = Static(fundingPeriodHours: real, feeMaker: real, feeTaker: real)

  /** `String(m?.symbol || m?.chain_details?.symbol || '').toUpperCase()`. */
  function StaticSymbol(m: StaticRow): string {
    Upper(if m.symbol != "" then m.symbol else m.chainSymbol)
  }

  /** Defaults: an 8-hour period, no fees. */
  function StaticEntry(m: StaticRow): (e: Static)
    ensures e.fundingPeriodHours == ToNum(m.fundingPeriodHours, 8.0)
    ensures e.feeMaker == ToNum(m.feeMaker, 0.0) && e.feeTaker == ToNum(m.feeTaker, 0.0)
  {
    Static(ToNum(m.fundingPeriodHours, 8.0), ToNum(m.feeMaker, 0.0), ToNum(m.feeTaker, 0.0))
  }

  /** The `bySymbol` object: rows whose symbol is empty are skipped, and a
      later row overwrites an earlier one. */
  function StaticTable(rows: seq<StaticRow>): map<string, Static>
    decreases |rows|
  {
    if |rows| == 0 then map[]
    else
      var n := |rows| - 1;
      var pre := StaticTable(rows[..n]);
      var sym := StaticSymbol(rows[n]);
      if sym == "" then pre else pre[sym := StaticEntry(rows[n])]
  }

  /** The table's keys are exactly the non-empty symbols. */
  lemma {:induction false} StaticTableKeys(rows: seq<StaticRow>)
    ensures forall k :: k in StaticTable(rows) <==> k != "" && exists i :: 0 <= i < |rows| && StaticSymbol(rows[i]) == k
    decreases |rows|
  {
    if |rows| > 0 {
      var n := |rows| - 1;
      StaticTableKeys(rows[..n]);
      assert forall i :: 0 <= i < n ==> rows[..n][i] == rows[i];
    }
  }

  /** A non-empty symbol's entry comes from its last row. */
  lemma {:induction false} StaticTableLastRowWins(rows: seq<StaticRow>, i: nat)
    requires i < |rows| && StaticSymbol(rows[i]) != ""
    requires forall j :: i < j < |rows| ==> StaticSymbol(rows[j]) != StaticSymbol(rows[i])
    ensures StaticSymbol(rows[i]) in StaticTable(rows)
    ensures StaticTable(rows)[StaticSymbol(rows[i])] == StaticEntry(rows[i])
    decreases |rows|
  {
    var n := |rows| - 1;
    if i < n {
      assert rows[..n][i] == rows[i];
      forall j | i < j < n ensures StaticSymbol(rows[..n][j]) != StaticSymbol(rows[..n][i]) {
        assert rows[..n][j] == rows[j];
      }
      StaticTableLastRowWins(rows[..n], i);
    }
  }

  datatype StaticCache = StaticCache(ts: nat, bySymbol: Option<map<string, Static>>)

  predicate CacheHit(c: StaticCache, now: nat, ttl: real) {
    c.bySymbol.Some? && ((now - c.ts) as real) < ttl
  }

  /** A response body, seen through `Array.isArray(json?.results)`. */
  datatype Results<R> = Results(rows: seq<R>) | NoResults

  function RowsOf<R>(json: Results<R>): seq<R> {
    match json
    case Results(rows) => rows
    case NoResults => []
  }

  /** What `_getMarketsStatic()` returns from cache `c` at clock reading `now`. */
  function Served(c: StaticCache, now: nat, ttl: real, fetched: Result<Results<StaticRow>, string>): (r: Result<map<string, Static>, string>)
    ensures CacheHit(c, now, ttl) ==> r == Ok(c.bySymbol.value)
    ensures !CacheHit(c, now, ttl) ==> (r.Ok? <==> fetched.Ok?)
    ensures !CacheHit(c, now, ttl) && fetched.Ok? ==> r.value == StaticTable(RowsOf(fetched.value))
  {
    if CacheHit(c, now, ttl) then Ok(c.bySymbol.value)
    else if fetched.Err? then Err(fetched.error)
    else Ok(StaticTable(RowsOf(fetched.value)))
  }

  // ------------------------------------------------------------------
  // selectBestMarkets
  // ------------------------------------------------------------------

  predicate Eligible(allowed: set<string>, row: SummaryRow) {
    BaseOf(row.symbol) != "" && QuoteOf(row.symbol) != "" && BaseOf(row.symbol) in allowed
  }

  function Candidates(rows: seq<SummaryRow>, allowed: set<string>, priority: seq<string>)
    : (r: seq<Winners.Candidate<SummaryRow>>)
    ensures |r| == 0 <==> forall i :: 0 <= i < |rows| ==> !Eligible(allowed, rows[i])
    ensures forall k :: 0 <= k < |r| ==>
      && r[k].base == BaseOf(r[k].payload.symbol) && r[k].base in allowed && QuoteOf(r[k].payload.symbol) != ""
      && r[k].score == Winners.QuoteScore(priority, QuoteOf(r[k].payload.symbol))
      && r[k].oi == ToNum(r[k].payload.openInterest, 0.0)
    decreases |rows|
  {
    if |rows| == 0 then []
    else
      var n := |rows| - 1;
      var pre := Candidates(rows[..n], allowed, priority);
      assert forall i :: 0 <= i < n ==> rows[..n][i] == rows[i];
      var row := rows[n];
      if Eligible(allowed, row) then pre + [CandidateOf(row, priority)] else pre
  }

  function CandidateOf(row: SummaryRow, priority: seq<string>): Winners.Candidate<SummaryRow> {
    Winners.Candidate(BaseOf(row.symbol), Winners.QuoteScore(priority, QuoteOf(row.symbol)), ToNum(row.openInterest, 0.0), row)
  }

  lemma CandidatesOfTwo(a: SummaryRow, b: SummaryRow, allowed: set<string>, priority: seq<string>)
    requires Eligible(allowed, a) && Eligible(allowed, b)
    ensures Candidates([a, b], allowed, priority) == [CandidateOf(a, priority), CandidateOf(b, priority)]
  {
    assert [a, b][..1] == [a];
    assert [a][..0] == [];
  }

  /** `selectBestMarkets(summaries, allowedPairs)`. */
  function BestMarkets(rows: seq<SummaryRow>, allowed: set<string>, priority: seq<string>): seq<Winners.Winner<SummaryRow>> {
    var cands := Candidates(rows, allowed, priority);
    Winners.FoldWellFormed(cands, true);
    Winners.Entries(Winners.Fold(cands, true))
  }

  /** One market per allowed base: highest quote score, then larger open
      interest (missing counts as 0), then first seen. */
  lemma BestMarketsProperties(rows: seq<SummaryRow>, allowed: set<string>, priority: seq<string>)
    ensures var w := BestMarkets(rows, allowed, priority);
      && Distinct(seq(|w|, k requires 0 <= k < |w| => w[k].pair))
      && (forall k :: 0 <= k < |w| ==> w[k].pair in allowed && BaseOf(w[k].payload.symbol) == w[k].pair)
      && (forall k :: 0 <= k < |w| ==> Winners.WinnerOf(Candidates(rows, allowed, priority), true, w[k]))
      && (|w| == 0 <==> forall i :: 0 <= i < |rows| ==> !Eligible(allowed, rows[i]))
  {
    var cands := Candidates(rows, allowed, priority);
    Winners.EntriesProperties(cands, true);
    var w := Winners.Entries(Winners.Fold(cands, true));
    forall k | 0 <= k < |w|
      ensures w[k].pair in allowed && BaseOf(w[k].payload.symbol) == w[k].pair
    {
      assert Winners.WinnerOf(cands, true, w[k]);
    }
  }

  /** `selectBestMarkets`: the `grouped` loop. */
  method SelectBestMarkets(rows: seq<SummaryRow>, allowed: set<string>, priority: seq<string>)
    returns (w: seq<Winners.Winner<SummaryRow>>)
    ensures w == BestMarkets(rows, allowed, priority)
  {
    w := Winners.Select(Candidates(rows, allowed, priority), true);
  }

  lemma DashSymbol(tokens: seq<string>)
    requires |tokens| == 3
    requires forall k :: 0 <= k < 3 ==> IsUpper(tokens[k]) && '-' !in tokens[k]
    ensures BaseOf(Join(tokens, '-')) == tokens[0] && QuoteOf(Join(tokens, '-')) == tokens[1]
  {
    var s := Join(tokens, '-');
    forall ch | ch in s
      ensures !IsLowerAscii(ch)
    {
      JoinChars(tokens, '-', ch);
    }
    Base.UpperOfUpper(s);
    SplitJoin(tokens, '-');
  }

  lemma ExampleSymbols()
    ensures BaseOf("BTC-USDC-PERP") == "BTC" && QuoteOf("BTC-USDC-PERP") == "USDC"
    ensures BaseOf("BTC-USD-PERP") == "BTC" && QuoteOf("BTC-USD-PERP") == "USD"
  {
    assert Join(["BTC", "USDC", "PERP"], '-') == "BTC-USDC-PERP";
    assert Join(["BTC", "USD", "PERP"], '-') == "BTC-USD-PERP";
    DashSymbol(["BTC", "USDC", "PERP"]);
    DashSymbol(["BTC", "USD", "PERP"]);
  }

  lemma UsdcScore(p: seq<string>)
    requires p == ["USD", "USDC", "USDT"]
    ensures Winners.QuoteScore(p, "USDC") == 2
  {
    assert p[0] != "USDC" by { assert |p[0]| != |"USDC"|; }
    assert IndexOf(p, "USDC") == 1;
  }

  lemma UsdScore(p: seq<string>)
    requires p == ["USD", "USDC", "USDT"]
    ensures Winners.QuoteScore(p, "USD") == 3
  {
    assert IndexOf(p, "USD") == 0;
  }

  lemma ExampleScores()
    ensures Winners.QuoteScore(QuotePriority(None), "USDC") == 2
    ensures Winners.QuoteScore(QuotePriority(None), "USD") == 3
  {
    DefaultPriority();
    UsdcScore(QuotePriority(None));
    UsdScore(QuotePriority(None));
  }

  /** With priority USD, USDC, USDT the USD market wins over the USDC market of
      the same base even with less open interest. */
  lemma QuoteBeatsOpenInterest(usdc: SummaryRow, usd: SummaryRow)
    requires usdc.symbol == "BTC-USDC-PERP" && usdc.openInterest == Num(100.0)
    requires usd.symbol == "BTC-USD-PERP" && usd.openInterest == Num(50.0)
    ensures BestMarkets([usdc, usd], {"BTC"}, QuotePriority(None)) == [Winners.Winner("BTC", usd)]
  {
    ExampleSymbols();
    ExampleScores();
    var priority := QuotePriority(None);
    CandidatesOfTwo(usdc, usd, {"BTC"}, priority);
    Winners.TwoOffers(CandidateOf(usdc, priority), CandidateOf(usd, priority), true);
  }

  // ------------------------------------------------------------------
  // Sent data
  // ------------------------------------------------------------------

  const HourMs: real := 3600000.0

  /** What one market yields: the rate, `future_funding` (defaulting to the
      rate), next funding one funding period from `now`, half the open
      interest each side, and the static fees. */
  datatype MarketData = MarketData(data: Base.FundingData, futureFunding: real)

  function MarketDataOf(row: SummaryRow, symbol: string, st: map<string, Static>, now: nat): (m: MarketData)
    ensures m.data.rate == ToNum(row.fundingRate, 0.0)
    ensures m.futureFunding == ToNum(row.futureFundingRate, m.data.rate)
    ensures symbol in st ==> m.data.next == now as real + HourMs * st[symbol].fundingPeriodHours
    ensures symbol !in st ==> m.data.next == now as real + 8.0 * HourMs
    ensures symbol !in st ==> m.data.fees == Base.Fees(0.0, 0.0)
    ensures symbol in st ==> m.data.fees == Base.Fees(st[symbol].feeMaker, st[symbol].feeTaker)
    ensures m.data.liquidity.Liquidity? && m.data.liquidity.long == m.data.liquidity.short
    ensures NumberOf(row.openInterest).Some? ==> m.data.liquidity.long + m.data.liquidity.short == NumberOf(row.openInterest).value
    ensures NumberOf(row.openInterest).None? ==> m.data.liquidity.long == 1000000.0
  {
    var rate := ToNum(row.fundingRate, 0.0);
    var future := ToNum(row.futureFundingRate, rate);
    var hours := if symbol in st then st[symbol].fundingPeriodHours else 8.0;
    var liquidity := match NumberOf(row.openInterest)
      case Some(oi) => Base.Liquidity(oi * 0.5, oi * 0.5)
      case None => Base.Liquidity(1000000.0, 1000000.0);
    var fees := if symbol in st then Base.Fees(st[symbol].feeMaker, st[symbol].feeTaker) else Base.Fees(0.0, 0.0);
    MarketData(Base.FundingData(rate, now as real + HourMs * hours, liquidity, fees), future)
  }

  /** The updates one `collectAndSend()` cycle sends (`future_funding` is not
      part of the message). */
  function Plan(rows: seq<SummaryRow>, st: map<string, Static>, allowed: set<string>, priority: seq<string>, now: nat)
    : (items: seq<Base.Item>)
    ensures |items| == |BestMarkets(rows, allowed, priority)|
  {
    var w := BestMarkets(rows, allowed, priority);
    seq(|w|, k requires 0 <= k < |w| => Base.Item(w[k].pair, MarketDataOf(w[k].payload, Upper(w[k].payload.symbol), st, now).data))
  }

  lemma PlanOnePerPair(rows: seq<SummaryRow>, st: map<string, Static>, allowed: set<string>, priority: seq<string>, now: nat)
    ensures var items := Plan(rows, st, allowed, priority, now);
      && (forall k :: 0 <= k < |items| ==> items[k].pair in allowed)
      && (forall j, k :: 0 <= j < k < |items| ==> items[j].pair != items[k].pair)
  {
    var w := BestMarkets(rows, allowed, priority);
    BestMarketsProperties(rows, allowed, priority);
    var pairs := seq(|w|, k requires 0 <= k < |w| => w[k].pair);
    forall j, k | 0 <= j < k < |w| ensures w[j].pair != w[k].pair {
      assert pairs[j] == w[j].pair && pairs[k] == w[k].pair;
    }
  }

  class ParadexCollector {
    const base: Base.Collector
    const allowedPairs: set<string>
    const priority: seq<string>
    const staticTtl: real
    var staticCache: StaticCache

    constructor(b: Base.Collector, optionPairs: Option<seq<string>>, allowedEnv: Option<string>,
                priorityEnv: Option<string>, ttl: real)
      ensures base == b && staticTtl == ttl && priority == QuotePriority(priorityEnv)
      ensures allowedPairs == Base.ParseAllowedPairs(optionPairs.GetOr(b.cfg.pairs), allowedEnv)
      ensures staticCache == StaticCache(0, None)
    {
      base := b;
      allowedPairs := Base.ParseAllowedPairs(optionPairs.GetOr(b.cfg.pairs), allowedEnv);
      priority := QuotePriority(priorityEnv);
      staticTtl := ttl;
      staticCache := StaticCache(0, None);
    }

    /** `_getMarketsStatic()` at clock reading `now`: the cache while fresh,
        otherwise the fetched table, which replaces the cache wholesale. */
    method GetMarketsStatic(now: nat, fetched: Result<Results<StaticRow>, string>) returns (r: Result<map<string, Static>, string>)
      modifies this
      ensures r == Served(old(staticCache), now, staticTtl, fetched)
      ensures if r.Ok? && !CacheHit(old(staticCache), now, staticTtl) then staticCache == StaticCache(now, Some(r.value))
        else staticCache == old(staticCache)
    {
      if staticCache.bySymbol.Some? && ((now - staticCache.ts) as real) < staticTtl {
        return Ok(staticCache.bySymbol.value);
      }
      if fetched.Err? {
        return Err(fetched.error);
      }
      var results := RowsOf(fetched.value);
      var bySymbol: map<string, Static> := map[];
      var i := 0;
      while i < |results|
        invariant i <= |results|
        invariant bySymbol == StaticTable(results[..i])
      {
        var sym := StaticSymbol(results[i]);
        assert results[..i + 1][..i] == results[..i];
        if sym != "" {
          bySymbol := bySymbol[sym := StaticEntry(results[i])];
        }
        i := i + 1;
      }
      assert results[..i] == results;
      staticCache := StaticCache(now, Some(bySymbol));
      r := Ok(bySymbol);
    }

    /** `collectAndSend()`: the static cache is refreshed even when the summary fetch fails. */
    method CollectAndSend(statics: Result<Results<StaticRow>, string>, summaries: Result<Results<SummaryRow>, string>, now: nat,
                          clock: nat -> nat, deliver: nat -> nat -> Result<string, string>)
      returns (report: Base.Report)
      modifies this, base
      ensures report.CollectFailed? <==> summaries.Err? || Served(old(staticCache), now, staticTtl, statics).Err?
      ensures !report.Sent? ==> base.lastSent == old(base.lastSent)
      ensures !report.CollectFailed? ==>
        var plan := Plan(RowsOf(summaries.value), Served(old(staticCache), now, staticTtl, statics).value, allowedPairs, priority, now);
        && (report.NothingToSend? <==> plan == [])
        && (report.Sent? ==>
              report.sent == |plan| &&
              (report.outcomes, base.lastSent) == Base.Batch(base.dex, base.cfg, old(base.lastSent), plan, clock, deliver))
      ensures var s := Served(old(staticCache), now, staticTtl, statics);
        if s.Ok? && !CacheHit(old(staticCache), now, staticTtl) then staticCache == StaticCache(now, Some(s.value))
        else staticCache == old(staticCache)
    {
      var st := GetMarketsStatic(now, statics);
      if st.Err? {
        return Base.CollectFailed(st.error);
      }
      if summaries.Err? {
        return Base.CollectFailed(summaries.error);
      }
      var rows := RowsOf(summaries.value);
      var items := SelectBestMarkets(rows, allowedPairs, priority);
      if |items| == 0 {
        return Base.NothingToSend;
      }
      var plan := Plan(rows, st.value, allowedPairs, priority, now);
      var sent, outcomes := base.SendBatch(plan, clock, deliver);
      report := Base.Sent(sent, outcomes);
    }

    /** `collectFundingData(pair)`: the best market of base `pair`; the allowed
        pairs are not consulted. */
    method CollectFundingData(pair: string, statics: Result<Results<StaticRow>, string>,
                              summaries: Result<Results<SummaryRow>, string>, now: nat)
      returns (r: Result<MarketData, string>)
      modifies this
      ensures r.Err? <==> (summaries.Err? || Served(old(staticCache), now, staticTtl, statics).Err? ||
        forall i :: 0 <= i < |RowsOf(summaries.value)| ==> !Eligible({Upper(pair)}, RowsOf(summaries.value)[i]))
      ensures r.Ok? ==> (
        var s := Served(old(staticCache), now, staticTtl, statics);
        summaries.Ok? && s.Ok? &&
        var w := BestMarkets(RowsOf(summaries.value), {Upper(pair)}, priority);
        |w| > 0 && w[0].pair == Upper(pair) &&
        r.value == MarketDataOf(w[0].payload, Upper(w[0].payload.symbol), s.value, now))
      ensures var s := Served(old(staticCache), now, staticTtl, statics);
        if s.Ok? && !CacheHit(old(staticCache), now, staticTtl) then staticCache == StaticCache(now, Some(s.value))
        else staticCache == old(staticCache)
    {
      var st := GetMarketsStatic(now, statics);
      if st.Err? {
        return Err(st.error);
      }
      if summaries.Err? {
        return Err(summaries.error);
      }
      var rows := RowsOf(summaries.value);
      var items := SelectBestMarkets(rows, {Upper(pair)}, priority);
      BestMarketsProperties(rows, {Upper(pair)}, priority);
      if |items| == 0 {
        return Err("[Paradex] Market introuvable pour " + pair);
      }
      r := Ok(MarketDataOf(items[0].payload, Upper(items[0].payload.symbol), st.value, now));
    }
  }
}
