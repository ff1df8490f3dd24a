/**
 * The Orderly adapter: symbols `PERP_<BASE>_<QUOTE>`, one row per allowed base
 * chosen by quote priority alone (the first row of highest rank), funding and
 * liquidity fallbacks, and the cached `info` table of funding periods and caps.
 */
module Orderly {
  import opened Wrappers
  import opened Strings
  import opened JsValues
  import opened JsMaps
  import Winners
  import Base

  // ------------------------------------------------------------------
  // Symbols
  // ------------------------------------------------------------------

  /** `splitPerm(sym)`: the upper-cased symbol split on '_', or [] when empty. */
  function SplitPerm(sym: string): (r: seq<string>)
    ensures sym == "" <==> r == []
    ensures sym != "" ==> Join(r, '_') == Upper(sym)
    ensures forall k :: 0 <= k < |r| ==> '_' !in r[k]
  {
    var s := Upper(sym);
    if s == "" then [] else
      JoinSplit(s, '_');
      SplitPiecesAvoidSep(s, '_');
      Split(s, '_')
  }

  /** `baseFromSymbol(sym)`: token 1, or "". */
  function BaseFromSymbol(sym: string): string {
    var p := SplitPerm(sym);
    if |p| > 1 then p[1] else ""
  }

  /** `quoteFromSymbol(sym)`: token 2, or "". */
  function QuoteFromSymbol(sym: string): string {
    var p := SplitPerm(sym);
    if |p| > 2 then p[2] else ""
  }

  /** `quoteRank(sym)`. */
  function QuoteRank(priority: seq<string>, sym: string): (r: nat)
    ensures r <= |priority|
    ensures r == 0 <==> QuoteFromSymbol(sym) !in priority
  {
    Winners.QuoteScore(priority, QuoteFromSymbol(sym))
  }

  /** `QUOTE_PRIORITY` from `ORDERLY_QUOTE_PRIORITY`, by default USDC, USD, USDT. */
  function QuotePriority(env: Option<string>): seq<string> {
    Base.CsvTokens(if env.None? || env.value == "" then "USDC,USD,USDT" else env.value)
  }

  /** Upper-case tokens without '_' joined by '_' split back into themselves. */
  lemma SplitPermOfJoin(tokens: seq<string>)
    requires |tokens| >= 1 && tokens[0] != ""
    requires forall k :: 0 <= k < |tokens| ==> IsUpper(tokens[k]) && '_' !in tokens[k]
    ensures SplitPerm(Join(tokens, '_')) == tokens
  {
    var s := Join(tokens, '_');
    forall ch | ch in s
      ensures !IsLowerAscii(ch)
    {
      JoinChars(tokens, '_', ch);
    }
    assert Upper(s) == s;
    assert s != "" by {
      if |tokens| > 1 { assert s == tokens[0] + ['_'] + Join(tokens[1..], '_'); }
    }
    SplitJoin(tokens, '_');
  }

  /** `PERP_BTC_USDC` has base BTC and quote USDC. */
  lemma PermSymbol()
    ensures SplitPerm("PERP_BTC_USDC") == ["PERP", "BTC", "USDC"]
    ensures BaseFromSymbol("PERP_BTC_USDC") == "BTC" && QuoteFromSymbol("PERP_BTC_USDC") == "USDC"
  {
    assert Join(["PERP", "BTC", "USDC"], '_') == "PERP_BTC_USDC";
    SplitPermOfJoin(["PERP", "BTC", "USDC"]);
  }

  // ------------------------------------------------------------------
  // Responses and tables
  // ------------------------------------------------------------------

  /** A response body, seen through `json?.data?.rows`: an array, or not. */
  datatype DataRows<R> = DataRows(rows: seq<R>) | NoRows

  function RowsOf<R>(json: DataRows<R>): seq<R> {
    match json
    case DataRows(rows) => rows
    case NoRows => []
  }

  /** A `funding_rates` row; `symbol` is `String(row?.symbol || '')`. */
  datatype FundingRow = FundingRow(symbol: string, estFundingRate: JsValue, lastFundingRate: JsValue, nextFundingTime: JsValue)

  /** A `traders_open_interests` row. */
  datatype OiRow = OiRow(symbol: string, longOi: JsValue, shortOi: JsValue)
  datatype Oi = Oi(long: Option<real>, short: Option<real>)

  /** The `symbol -> {long_oi, short_oi}` Map, `toNum(x, NaN)` each. An empty
      symbol is stored too. */
  function OpenInterests(rows: seq<OiRow>): map<string, Oi>
    decreases |rows|
  {
    if |rows| == 0 then map[]
    else
      var n := |rows| - 1;
      OpenInterests(rows[..n])[Upper(rows[n].symbol) := Oi(NumberOf(rows[n].longOi), NumberOf(rows[n].shortOi))]
  }

  /** The table's keys are exactly the upper-cased symbols, the empty one included. */
  lemma {:induction false} OpenInterestsKeys(rows: seq<OiRow>)
    ensures forall k :: k in OpenInterests(rows) <==> exists i :: 0 <= i < |rows| && Upper(rows[i].symbol) == k
    decreases |rows|
  {
    if |rows| > 0 {
      var n := |rows| - 1;
      OpenInterestsKeys(rows[..n]);
      assert forall i :: 0 <= i < n ==> rows[..n][i] == rows[i];
    }
  }

  /** A symbol's entry comes from its last row. */
  lemma {:induction false} OpenInterestsLastRowWins(rows: seq<OiRow>, i: nat)
    requires i < |rows|
    requires forall j :: i < j < |rows| ==> Upper(rows[j].symbol) != Upper(rows[i].symbol)
    ensures Upper(rows[i].symbol) in OpenInterests(rows)
    ensures OpenInterests(rows)[Upper(rows[i].symbol)] == Oi(NumberOf(rows[i].longOi), NumberOf(rows[i].shortOi))
    decreases |rows|
  {
    var n := |rows| - 1;
    if i < n {
      assert rows[..n][i] == rows[i];
      forall j | i < j < n ensures Upper(rows[..n][j].symbol) != Upper(rows[..n][i].symbol) {
        assert rows[..n][j] == rows[j];
      }
      OpenInterestsLastRowWins(rows[..n], i);
    }
  }

  /** `_getOpenInterests()` after its fetch. */
  method BuildOpenInterests(json: DataRows<OiRow>) returns (bySymbol: map<string, Oi>)
    ensures bySymbol == OpenInterests(RowsOf(json))
  {
    var rows := RowsOf(json);
    bySymbol := map[];
    var i := 0;
    while i < |rows|
      invariant i <= |rows|
      invariant bySymbol == OpenInterests(rows[..i])
    {
      var sym := Upper(rows[i].symbol);
      bySymbol := bySymbol[sym := Oi(NumberOf(rows[i].longOi), NumberOf(rows[i].shortOi))];
      assert rows[..i + 1][..i] == rows[..i];
      i := i + 1;
    }
    assert rows[..i] == rows;
  }

  /** An `info` row and the entry it yields. */
  datatype InfoRow = InfoRow(symbol: string, fundingPeriod: JsValue, capFunding: JsValue, floorFunding: JsValue)
  datatype Info = Info(fundingPeriod: real, capFunding: real, floorFunding: real)

  /** The defaults: an 8-hour period, a cap of 0.000375 and a floor of -0.000375. */
  function InfoEntry(r: InfoRow): (e: Info)
    ensures NumberOf(r.fundingPeriod).None? ==> e.fundingPeriod == 8.0
    ensures NumberOf(r.capFunding).None? ==> e.capFunding == 0.000375
    ensures NumberOf(r.floorFunding).None? ==> e.floorFunding == -0.000375
    ensures NumberOf(r.fundingPeriod).Some? ==> e.fundingPeriod == NumberOf(r.fundingPeriod).value
    ensures NumberOf(r.capFunding).Some? ==> e.capFunding == NumberOf(r.capFunding).value
    ensures NumberOf(r.floorFunding).Some? ==> e.floorFunding == NumberOf(r.floorFunding).value
  {
    Info(ToNum(r.fundingPeriod, 8.0), ToNum(r.capFunding, 0.000375), ToNum(r.floorFunding, -0.000375))
  }

  /** The `bySymbol` object `_getInfoCache` fills: rows with an empty symbol
      are skipped, and a later row overwrites an earlier one. */
  function InfoTable(rows: seq<InfoRow>): map<string, Info>
    decreases |rows|
  {
    if |rows| == 0 then map[]
    else
      var n := |rows| - 1;
      var pre := InfoTable(rows[..n]);
      var sym := Upper(rows[n].symbol);
      if sym == "" then pre else pre[sym := InfoEntry(rows[n])]
  }

  /** The table's keys are exactly the non-empty upper-cased symbols. */
  lemma {:induction false} InfoTableKeys(rows: seq<InfoRow>)
    ensures forall k :: k in InfoTable(rows) <==> k != "" && exists i :: 0 <= i < |rows| && Upper(rows[i].symbol) == k
    decreases |rows|
  {
    if |rows| > 0 {
      var n := |rows| - 1;
      InfoTableKeys(rows[..n]);
      assert forall i :: 0 <= i < n ==> rows[..n][i] == rows[i];
    }
  }

  /** A non-empty symbol's entry comes from its last row. */
  lemma {:induction false} InfoTableLastRowWins(rows: seq<InfoRow>, i: nat)
    requires i < |rows| && Upper(rows[i].symbol) != ""
    requires forall j :: i < j < |rows| ==> Upper(rows[j].symbol) != Upper(rows[i].symbol)
    ensures Upper(rows[i].symbol) in InfoTable(rows)
    ensures InfoTable(rows)[Upper(rows[i].symbol)] == InfoEntry(rows[i])
    decreases |rows|
  {
    var n := |rows| - 1;
    if i < n {
      assert rows[..n][i] == rows[i];
      forall j | i < j < n ensures Upper(rows[..n][j].symbol) != Upper(rows[..n][i].symbol) {
        assert rows[..n][j] == rows[j];
      }
      InfoTableLastRowWins(rows[..n], i);
    }
  }

  /** The info cache: fill time and table (null until filled). */
  datatype InfoCache = InfoCache(ts: nat, bySymbol: Option<map<string, Info>>)

  /** `this._infoCache.bySymbol && (now - ts) < TTL`: an empty table still counts. */
  predicate CacheHit(c: InfoCache, now: nat, ttl: real) {
    c.bySymbol.Some? && ((now - c.ts) as real) < ttl
  }

  // ------------------------------------------------------------------
  // Winners and sent data
  // ------------------------------------------------------------------

  /** The rows `_selectWinners` offers: those of a non-empty allowed base. */
  predicate Eligible(allowed: set<string>, row: FundingRow) {
    BaseFromSymbol(row.symbol) != "" && BaseFromSymbol(row.symbol) in allowed
  }

  predicate NoneEligible(allowed: set<string>, rows: seq<FundingRow>) {
    forall i :: 0 <= i < |rows| ==> !Eligible(allowed, rows[i])
  }

  /** The rows `_selectWinners` offers to the `grouped` Map, in row order. */
  function Candidates(rows: seq<FundingRow>, allowed: set<string>, priority: seq<string>)
    : seq<Winners.Candidate<FundingRow>>
    decreases |rows|
  {
    if |rows| == 0 then []
    else
      var n := |rows| - 1;
      var pre := Candidates(rows[..n], allowed, priority);
      if Eligible(allowed, rows[n]) then pre + [CandidateOf(priority, rows[n])] else pre
  }

  /** The row offered for an eligible row: its base, scored by its quote rank, open interest 0. */
  function CandidateOf(priority: seq<string>, row: FundingRow): Winners.Candidate<FundingRow> {
    var sym := Upper(row.symbol);
    Winners.Candidate(BaseFromSymbol(sym), QuoteRank(priority, sym), 0.0, row)
  }

  /** A candidate row: an allowed non-empty base taken from the row's symbol,
      scored by its quote rank, with no open interest. */
  predicate CandidateRow(allowed: set<string>, priority: seq<string>, c: Winners.Candidate<FundingRow>) {
    && c.base == BaseFromSymbol(c.payload.symbol) && c.base in allowed && c.base != ""
    && c.score == QuoteRank(priority, Upper(c.payload.symbol)) && c.oi == 0.0
  }

  lemma CandidatesStep(rows: seq<FundingRow>, allowed: set<string>, priority: seq<string>)
    requires |rows| > 0
    ensures var n := |rows| - 1;
      Candidates(rows, allowed, priority) ==
        Candidates(rows[..n], allowed, priority) + (if Eligible(allowed, rows[n]) then [CandidateOf(priority, rows[n])] else [])
  {
  }

  lemma NoneEligibleStep(allowed: set<string>, rows: seq<FundingRow>)
    requires |rows| > 0
    ensures NoneEligible(allowed, rows) <==>
      NoneEligible(allowed, rows[..|rows| - 1]) && !Eligible(allowed, rows[|rows| - 1])
  {
    var n := |rows| - 1;
    assert forall i :: 0 <= i < n ==> rows[..n][i] == rows[i];
  }

  /** Some row is offered exactly when some row is eligible. */
  lemma {:induction false} CandidatesEmpty(rows: seq<FundingRow>, allowed: set<string>, priority: seq<string>)
    ensures |Candidates(rows, allowed, priority)| == 0 <==> NoneEligible(allowed, rows)
    decreases |rows|
  {
    if |rows| > 0 {
      var n := |rows| - 1;
      CandidatesEmpty(rows[..n], allowed, priority);
      CandidatesStep(rows, allowed, priority);
      NoneEligibleStep(allowed, rows);
    }
  }

  /** Every offered row is a candidate row. */
  lemma {:induction false} CandidatesRows(rows: seq<FundingRow>, allowed: set<string>, priority: seq<string>)
    ensures var r := Candidates(rows, allowed, priority);
      forall k :: 0 <= k < |r| ==> CandidateRow(allowed, priority, r[k])
    decreases |rows|
  {
    if |rows| > 0 {
      var n := |rows| - 1;
      var pre := Candidates(rows[..n], allowed, priority);
      var r := Candidates(rows, allowed, priority);
      CandidatesRows(rows[..n], allowed, priority);
      CandidatesStep(rows, allowed, priority);
      if Eligible(allowed, rows[n]) {
        BaseOfUpper(rows[n].symbol);
        var c := CandidateOf(priority, rows[n]);
        assert CandidateRow(allowed, priority, c);
        forall k | 0 <= k < |r|
          ensures CandidateRow(allowed, priority, r[k])
        {
          if k < |pre| {
            assert r[k] == pre[k];
          }
        }
      }
    }
  }

  /** `_selectWinners(fundingRows)`: comparison on quote rank only (strict `>`). */
  function WinnersOf(rows: seq<FundingRow>, allowed: set<string>, priority: seq<string>): seq<Winners.Winner<FundingRow>> {
    var cands := Candidates(rows, allowed, priority);
    Winners.FoldWellFormed(cands, false);
    Winners.Entries(Winners.Fold(cands, false))
  }

  /** One row per allowed base: the first row of highest quote rank for it; none
      exactly when no row is eligible. */
  lemma WinnersOfProperties(rows: seq<FundingRow>, allowed: set<string>, priority: seq<string>)
    ensures var w := WinnersOf(rows, allowed, priority);
      && Distinct(seq(|w|, k requires 0 <= k < |w| => w[k].pair))
      && (forall k :: 0 <= k < |w| ==> w[k].pair in allowed && BaseFromSymbol(w[k].payload.symbol) == w[k].pair)
      && (forall k :: 0 <= k < |w| ==> Winners.WinnerOf(Candidates(rows, allowed, priority), false, w[k]))
      && (|w| == 0 <==> NoneEligible(allowed, rows))
  {
    var cands := Candidates(rows, allowed, priority);
    CandidatesEmpty(rows, allowed, priority);
    CandidatesRows(rows, allowed, priority);
    Winners.EntriesProperties(cands, false);
    var w := Winners.Entries(Winners.Fold(cands, false));
    forall k | 0 <= k < |w|
      ensures w[k].pair in allowed && BaseFromSymbol(w[k].payload.symbol) == w[k].pair
    {
      assert Winners.WinnerOf(cands, false, w[k]);
    }
  }

  /** With no tie-break on open interest, a later row of equal rank never
      displaces the first. */
  lemma FirstOfEqualRankKept(a: FundingRow, b: FundingRow, allowed: set<string>, priority: seq<string>)
    requires Eligible(allowed, a) && Eligible(allowed, b)
    requires BaseFromSymbol(a.symbol) == BaseFromSymbol(b.symbol)
    requires QuoteRank(priority, Upper(a.symbol)) == QuoteRank(priority, Upper(b.symbol))
    ensures WinnersOf([a, b], allowed, priority) == [Winners.Winner(BaseFromSymbol(a.symbol), a)]
  {
    BaseOfUpper(a.symbol);
    BaseOfUpper(b.symbol);
    var base := BaseFromSymbol(a.symbol);
    var ca := CandidateOf(priority, a);
    var cb := CandidateOf(priority, b);
    assert [a, b][..1] == [a];
    assert [a][..0] == [];
    CandidatesStep([a], allowed, priority);
    CandidatesStep([a, b], allowed, priority);
    assert Candidates([a, b], allowed, priority) == [ca, cb];
    assert [ca, cb][..1] == [ca];
    assert [ca][..0] == [];
    var e: Winners.Grouped<FundingRow> := Empty();
    assert Winners.Fold([ca][..0], false) == e;
    var g1 := Winners.Fold([ca], false);
    assert g1 == Winners.Offer(e, ca, false);
    assert g1 == Set(e, base, ca);
    assert !Winners.Better(cb, ca, false);
    assert Winners.Fold([ca, cb], false) == g1;
  }

  /** `_selectWinners`: the `grouped` loop. */
  method SelectWinners(rows: seq<FundingRow>, allowed: set<string>, priority: seq<string>)
    returns (w: seq<Winners.Winner<FundingRow>>)
    ensures w == WinnersOf(rows, allowed, priority)
  {
    w := Winners.Select(Candidates(rows, allowed, priority), false);
  }

  /** `toNum(est_funding_rate, toNum(last_funding_rate, 0))`. */
  function FundingRateOf(row: FundingRow): (r: real)
    ensures NumberOf(row.estFundingRate).Some? ==> r == NumberOf(row.estFundingRate).value
    ensures NumberOf(row.estFundingRate).None? && NumberOf(row.lastFundingRate).Some? ==> r == NumberOf(row.lastFundingRate).value
    ensures NumberOf(row.estFundingRate).None? && NumberOf(row.lastFundingRate).None? ==> r == 0.0
  {
    ToNum(row.estFundingRate, ToNum(row.lastFundingRate, 0.0))
  }

  /** Each side is its open interest, or 1 000 000 on its own when that is not numeric. */
  function LiquidityOf(oi: map<string, Oi>, symbol: string): (l: Base.Liquidity)
    ensures l.Liquidity?
    ensures symbol in oi && oi[symbol].long.Some? ==> l.long == oi[symbol].long.value
    ensures !(symbol in oi && oi[symbol].long.Some?) ==> l.long == 1000000.0
    ensures symbol in oi && oi[symbol].short.Some? ==> l.short == oi[symbol].short.value
    ensures !(symbol in oi && oi[symbol].short.Some?) ==> l.short == 1000000.0
  {
    var o := if symbol in oi then oi[symbol] else Oi(None, None);
    Base.Liquidity(o.long.GetOr(1000000.0), o.short.GetOr(1000000.0))
  }

  /** The data sent for a winning row. */
  function RowData(row: FundingRow, oi: map<string, Oi>, now: nat): (d: Base.FundingData)
    ensures d.rate == FundingRateOf(row)
    ensures d.next == ToNum(row.nextFundingTime, now as real)
    ensures d.liquidity == LiquidityOf(oi, Upper(row.symbol))
    ensures d.fees == Base.Fees(0.0002, 0.0005)
  {
    Base.FundingData(FundingRateOf(row), ToNum(row.nextFundingTime, now as real), LiquidityOf(oi, Upper(row.symbol)), Base.Fees(0.0002, 0.0005))
  }

  /** The updates one `collectAndSend()` cycle sends, in order. */
  function Plan(rows: seq<FundingRow>, oi: map<string, Oi>, allowed: set<string>, priority: seq<string>, now: nat)
    : (items: seq<Base.Item>)
    ensures |items| == |WinnersOf(rows, allowed, priority)|
  {
    var w := WinnersOf(rows, allowed, priority);
    seq(|w|, k requires 0 <= k < |w| => Base.Item(w[k].pair, RowData(w[k].payload, oi, now)))
  }

  /** A cycle sends at most one update per pair, and only for allowed pairs. */
  lemma PlanOnePerPair(rows: seq<FundingRow>, oi: map<string, Oi>, allowed: set<string>, priority: seq<string>, now: nat)
    ensures var items := Plan(rows, oi, allowed, priority, now);
      && (forall k :: 0 <= k < |items| ==> items[k].pair in allowed)
      && (forall j, k :: 0 <= j < k < |items| ==> items[j].pair != items[k].pair)
  {
    var w := WinnersOf(rows, allowed, priority);
    WinnersOfProperties(rows, allowed, priority);
    var pairs := seq(|w|, k requires 0 <= k < |w| => w[k].pair);
    forall j, k | 0 <= j < k < |w| ensures w[j].pair != w[k].pair {
      assert pairs[j] == w[j].pair && pairs[k] == w[k].pair;
    }
  }

  /** `fundRows.filter(r => baseFromSymbol(r?.symbol) === base)`. */
  function RowsWithBase(rows: seq<FundingRow>, base: string): (r: seq<FundingRow>)
    ensures forall x :: x in r <==> x in rows && BaseFromSymbol(x.symbol) == base
    decreases |rows|
  {
    if |rows| == 0 then []
    else
      var rest := RowsWithBase(rows[1..], base);
      if BaseFromSymbol(rows[0].symbol) == base then [rows[0]] + rest else rest
  }

  /** Upper-casing a symbol first does not change its base. */
  lemma BaseOfUpper(sym: string)
    ensures BaseFromSymbol(Upper(sym)) == BaseFromSymbol(sym)
  {
    UpperIsUpper(sym);
  }

  /** Among the rows of base `b`, one is eligible iff `b` is non-empty and
      allowed and such a row exists. */
  lemma OnlyBaseRows(rows: seq<FundingRow>, b: string, allowed: set<string>)
    ensures NoneEligible(allowed, RowsWithBase(rows, b)) <==>
      (b == "" || b !in allowed || forall x :: x in rows ==> BaseFromSymbol(x.symbol) != b)
  {
    var sub := RowsWithBase(rows, b);
    if b != "" && b in allowed && exists x :: x in rows && BaseFromSymbol(x.symbol) == b {
      var x :| x in rows && BaseFromSymbol(x.symbol) == b;
      assert x in sub;
      var i :| 0 <= i < |sub| && sub[i] == x;
      assert Eligible(allowed, sub[i]);
    }
  }

  class OrderlyCollector {
    const base: Base.Collector
    const allowedPairs: set<string>
    const priority: seq<string>
    const infoTtl: real
    var infoCache: InfoCache

    constructor(b: Base.Collector, optionPairs: Option<seq<string>>, allowedEnv: Option<string>,
                priorityEnv: Option<string>, ttl: real)
      ensures base == b && infoTtl == ttl && priority == QuotePriority(priorityEnv)
      ensures allowedPairs == Base.ParseAllowedPairs(optionPairs.GetOr(b.cfg.pairs), allowedEnv)
      ensures infoCache == InfoCache(0, None)
    {
      base := b;
      allowedPairs := Base.ParseAllowedPairs(optionPairs.GetOr(b.cfg.pairs), allowedEnv);
      priority := QuotePriority(priorityEnv);
      infoTtl := ttl;
      infoCache := InfoCache(0, None);
    }

    /** `_getInfoCache()` at clock reading `now`; `fetched` is what the retried request gave. */
    method GetInfoCache(now: nat, fetched: Result<DataRows<InfoRow>, string>) returns (r: Result<map<string, Info>, string>)
      modifies this
      ensures CacheHit(old(infoCache), now, infoTtl) ==>
        r == Ok(old(infoCache).bySymbol.value) && infoCache == old(infoCache)
      ensures !CacheHit(old(infoCache), now, infoTtl) && fetched.Err? ==>
        r == Err(fetched.error) && infoCache == old(infoCache)
      ensures !CacheHit(old(infoCache), now, infoTtl) && fetched.Ok? ==>
        r == Ok(InfoTable(RowsOf(fetched.value))) && infoCache == InfoCache(now, Some(InfoTable(RowsOf(fetched.value))))
    {
      if infoCache.bySymbol.Some? && ((now - infoCache.ts) as real) < infoTtl {
        return Ok(infoCache.bySymbol.value);
      }
      if fetched.Err? {
        return Err(fetched.error);
      }
      var rows := RowsOf(fetched.value);
      var bySymbol: map<string, Info> := map[];
      var i := 0;
      while i < |rows|
        invariant i <= |rows|
        invariant bySymbol == InfoTable(rows[..i])
      {
        var sym := Upper(rows[i].symbol);
        assert rows[..i + 1][..i] == rows[..i];
        if sym != "" {
          bySymbol := bySymbol[sym := InfoEntry(rows[i])];
        }
        i := i + 1;
      }
      assert rows[..i] == rows;
      infoCache := InfoCache(now, Some(bySymbol));
      r := Ok(bySymbol);
    }

    /**
     * `collectAndSend()`: the three fetches run together, so the info cache is
     * refreshed even when another fetch fails; any failure ends the cycle.
     */
    method CollectAndSend(funding: Result<DataRows<FundingRow>, string>, ois: Result<DataRows<OiRow>, string>,
                          info: Result<DataRows<InfoRow>, string>, now: nat,
                          clock: nat -> nat, deliver: nat -> nat -> Result<string, string>)
      returns (report: Base.Report)
      modifies this, base
      ensures report.CollectFailed? <==> funding.Err? || ois.Err? || (!CacheHit(old(infoCache), now, infoTtl) && info.Err?)
      ensures !report.Sent? ==> base.lastSent == old(base.lastSent)
      ensures funding.Ok? && ois.Ok? && !report.CollectFailed? ==>
        var plan := Plan(RowsOf(funding.value), OpenInterests(RowsOf(ois.value)), allowedPairs, priority, now);
        && (report.NothingToSend? <==> plan == [])
        && (report.Sent? ==>
              report.sent == |plan| &&
              (report.outcomes, base.lastSent) == Base.Batch(base.dex, base.cfg, old(base.lastSent), plan, clock, deliver))
      ensures if !CacheHit(old(infoCache), now, infoTtl) && info.Ok? then
        infoCache == InfoCache(now, Some(InfoTable(RowsOf(info.value))))
      else infoCache == old(infoCache)
    {
      var infoBySym := GetInfoCache(now, info);
      if funding.Err? {
        return Base.CollectFailed(funding.error);
      }
      if ois.Err? {
        return Base.CollectFailed(ois.error);
      }
      if infoBySym.Err? {
        return Base.CollectFailed(infoBySym.error);
      }
      var fundRows := RowsOf(funding.value);
      var oiBySym := BuildOpenInterests(ois.value);
      var winners := SelectWinners(fundRows, allowedPairs, priority);
      if |winners| == 0 {
        return Base.NothingToSend;
      }
      var items := Plan(fundRows, oiBySym, allowedPairs, priority, now);
      var sent, outcomes := base.SendBatch(items, clock, deliver);
      report := Base.Sent(sent, outcomes);
    }

    /** `collectFundingData(pair)`: the winner among the rows of base `pair`. */
    method CollectFundingData(pair: string, funding: Result<DataRows<FundingRow>, string>, ois: Result<DataRows<OiRow>, string>,
                              info: Result<DataRows<InfoRow>, string>, now: nat)
      returns (r: Result<Base.FundingData, string>)
      modifies this
      ensures r.Err? <==> (funding.Err? || ois.Err? || (!CacheHit(old(infoCache), now, infoTtl) && info.Err?) ||
        Upper(pair) == "" || Upper(pair) !in allowedPairs ||
        forall x :: x in RowsOf(funding.value) ==> BaseFromSymbol(x.symbol) != Upper(pair))
      ensures r.Ok? ==>
        var w := WinnersOf(RowsWithBase(RowsOf(funding.value), Upper(pair)), allowedPairs, priority);
        |w| > 0 && r.value == RowData(w[0].payload, OpenInterests(RowsOf(ois.value)), now)
      ensures r.Ok? ==> r.value.fees == Base.Fees(0.0002, 0.0005)
      ensures if !CacheHit(old(infoCache), now, infoTtl) && info.Ok? then
        infoCache == InfoCache(now, Some(InfoTable(RowsOf(info.value))))
      else infoCache == old(infoCache)
    {
      var infoBySym := GetInfoCache(now, info);
      if funding.Err? {
        return Err(funding.error);
      }
      if ois.Err? {
        return Err(ois.error);
      }
      if infoBySym.Err? {
        return Err(infoBySym.error);
      }
      var oiBySym := BuildOpenInterests(ois.value);
      var b := Upper(pair);
      var sub := RowsWithBase(RowsOf(funding.value), b);
      var winners := SelectWinners(sub, allowedPairs, priority);
      WinnersOfProperties(sub, allowedPairs, priority);
      OnlyBaseRows(RowsOf(funding.value), b, allowedPairs);
      if |winners| == 0 {
        return Err("[Orderly] Market introuvable pour " + pair);
      }
      r := Ok(RowData(winners[0].payload, oiBySym, now));
    }
  }
}
