/**
 * The Backpack adapter: perpetual symbols such as `SOL_USDC_PERP` or
 * `SOL-USDC-PERP`, one market per base asset preferring the quote priority
 * and then the larger open interest, mark prices with next-funding times
 * normalised to milliseconds, and a cached markets list.
 */
module Backpack {
  import opened Wrappers
  import opened Strings
  import opened JsValues
  import opened JsMaps
  import opened Timestamps
  import Winners
  import Base

  // ------------------------------------------------------------------
  // Symbols
  // ------------------------------------------------------------------

  /** `parts.filter(Boolean)`. */
  function NonEmpty(pieces: seq<string>): (r: seq<string>)
    ensures forall k :: 0 <= k < |r| ==> r[k] != "" && r[k] in pieces
    ensures (forall k :: 0 <= k < |pieces| ==> pieces[k] != "") ==> r == pieces
    decreases |pieces|
  {
    if |pieces| == 0 then []
    else if pieces[0] == "" then NonEmpty(pieces[1..])
    else [pieces[0]] + NonEmpty(pieces[1..])
  }

  /** `splitTokens(sym)`: upper-case, split on '_' if there is one, else on
      '-', drop empty pieces. */
  function SplitTokens(sym: string): (r: seq<string>)
    ensures sym == "" ==> r == []
    ensures forall k :: 0 <= k < |r| ==> r[k] != "" && IsUpper(r[k]) && '_' !in r[k]
    ensures '_' !in sym ==> forall k :: 0 <= k < |r| ==> '-' !in r[k]
  {
    var s := Upper(sym);
    UpperKeepsChar(sym, '_');
    UpperIsUpper(sym);
    if s == "" then []
    else
      var sep := if '_' in s then '_' else '-';
      var r := NonEmpty(Split(s, sep));
      SplitPiecesAvoidSep(s, sep);
      SplitPiecesFromString(s, sep);
      assert forall k :: 0 <= k < |r| ==> IsUpper(r[k]) && '_' !in r[k] by {
        forall k | 0 <= k < |r|
          ensures IsUpper(r[k]) && '_' !in r[k]
        {
          var j :| 0 <= j < |Split(s, sep)| && Split(s, sep)[j] == r[k];
          assert forall i :: 0 <= i < |r[k]| ==> r[k][i] in s;
        }
      }
      r
  }

  /** Upper-case tokens joined with '_' or '-' split back into themselves. */
  lemma SplitTokensOfJoin(tokens: seq<string>, sep: char)
    requires |tokens| >= 1
    requires sep == '_' || sep == '-'
    requires forall k :: 0 <= k < |tokens| ==> tokens[k] != "" && IsUpper(tokens[k]) && '_' !in tokens[k] && '-' !in tokens[k]
    ensures SplitTokens(Join(tokens, sep)) == tokens
  {
    var s := Join(tokens, sep);
    forall ch | ch in s
      ensures !IsLowerAscii(ch) && (ch == '_' ==> sep == '_' && |tokens| >= 2)
    {
      JoinChars(tokens, sep, ch);
    }
    assert Upper(s) == s;
    assert s != "" by {
      assert |s| >= |tokens[0]| by {
        if |tokens| > 1 { assert s == tokens[0] + [sep] + Join(tokens[1..], sep); }
      }
    }
    if '_' in s {
      SplitJoin(tokens, '_');
    } else if sep == '-' {
      SplitJoin(tokens, '-');
    } else {
      if |tokens| >= 2 { SepInJoin(tokens, '_'); }
      assert s == tokens[0];
      SplitWithoutSep(s, '-');
    }
  }

  /** `symbolBase(sym)`: the first token, or "". */
  function SymbolBase(sym: string): string {
    var parts := SplitTokens(sym);
    if |parts| > 0 then parts[0] else ""
  }

  /** `.replace(/PERP$/, '')`. */
  function StripPerp(t: string): (r: string)
    ensures EndsWith(t, "PERP") ==> r + "PERP" == t
    ensures !EndsWith(t, "PERP") ==> r == t
  {
    if EndsWith(t, "PERP") then t[..|t| - 4] else t
  }

  /** `symbolQuote(sym)`: the second token with a trailing PERP removed, or "". */
  function SymbolQuote(sym: string): (r: string)
    ensures |SplitTokens(sym)| < 2 ==> r == ""
    ensures |SplitTokens(sym)| >= 2 ==> r == StripPerp(SplitTokens(sym)[1])
  {
    var parts := SplitTokens(sym);
    if |parts| >= 2 then StripPerp(parts[1]) else ""
  }

  /** `isPerpSymbol(sym)`: the three tests of the source collapse to
      "contains PERP". */
  function IsPerpSymbol(sym: string): (r: bool)
    ensures r <==> Contains(Upper(sym), "PERP")
  {
    var s := Upper(sym);
    if EndsWith(s, "_PERP") then
      assert OccursAt(s, "PERP", |s| - 4);
      ContainsAt(s, "PERP", |s| - 4);
      true
    else if EndsWith(s, "-PERP") then
      assert OccursAt(s, "PERP", |s| - 4);
      ContainsAt(s, "PERP", |s| - 4);
      true
    else Contains(s, "PERP")
  }

  /** `rankByQuote(sym)`. */
  function RankByQuote(priority: seq<string>, sym: string): (r: nat)
    ensures r <= |priority|
    ensures r == 0 <==> SymbolQuote(sym) !in priority
  {
    Winners.QuoteScore(priority, SymbolQuote(sym))
  }

  const DefaultQuotePriority: string := "USDC,USD,USDT"

  /** `QUOTE_PRIORITY` from `BACKPACK_QUOTE_PRIORITY`. */
  function QuotePriority(env: Option<string>): seq<string> {
    Base.CsvTokens(if env.None? || env.value == "" then DefaultQuotePriority else env.value)
  }

  /** The default priority is USDC, then USD, then USDT. */
  lemma DefaultPriority()
    ensures QuotePriority(None) == ["USDC", "USD", "USDT"]
  {
    assert Join(["USDC", "USD", "USDT"], ',') == DefaultQuotePriority;
    Base.CsvRoundTrip(["USDC", "USD", "USDT"]);
  }

  /** `SOL_USDC_PERP` has base SOL and quote USDC, is a perpetual, and ranks
      highest under the default priority. */
  lemma UnderscoreSymbol()
    ensures SplitTokens("SOL_USDC_PERP") == ["SOL", "USDC", "PERP"]
    ensures SymbolBase("SOL_USDC_PERP") == "SOL" && SymbolQuote("SOL_USDC_PERP") == "USDC"
    ensures RankByQuote(QuotePriority(None), "SOL_USDC_PERP") == 3
  {
    assert Join(["SOL", "USDC", "PERP"], '_') == "SOL_USDC_PERP";
    SplitTokensOfJoin(["SOL", "USDC", "PERP"], '_');
    assert !EndsWith("USDC", "PERP");
    DefaultPriority();
  }

  /** In `SOL-USDTPERP` the quote token loses its trailing PERP. */
  lemma HyphenSymbol()
    ensures SymbolQuote("SOL-USDTPERP") == "USDT"
  {
    assert Join(["SOL", "USDTPERP"], '-') == "SOL-USDTPERP";
    SplitTokensOfJoin(["SOL", "USDTPERP"], '-');
    assert EndsWith("USDTPERP", "PERP");
    assert "USDTPERP"[..4] == "USDT";
  }

  // ------------------------------------------------------------------
  // Responses
  // ------------------------------------------------------------------

  /** A response body: an array, an object with a `results` array, or anything else. */
  datatype Response<R> = Rows(rows: seq<R>) | Results(results: seq<R>) | Unshaped

  /** `Array.isArray(json) ? json : (Array.isArray(json?.results) ? json.results : [])`. */
  function RowsOf<R>(json: Response<R>): seq<R> {
    match json
    case Rows(rows) => rows
    case Results(rows) => rows
    case Unshaped => []
  }

  /** A `markPrices` row: its symbol as `String(r?.symbol || '')`. */
  datatype MarkRow = MarkRow(symbol: string, fundingRate: JsValue, nextFundingTimestamp: JsValue)
  datatype MarkPrice = MarkPrice(rate: real, next: real)

  /** An `openInterest` row. */
  datatype OiRow = OiRow(symbol: string, openInterest: JsValue)

  /** The entry one mark-price row yields at clock reading `now`. */
  function MarkEntry(r: MarkRow, now: nat): (e: MarkPrice)
    ensures e.rate == ToNum(r.fundingRate, 0.0)
    ensures e.next == FromPositiveSeconds(ToNum(r.nextFundingTimestamp, now as real))
  {
    MarkPrice(ToNum(r.fundingRate, 0.0), FromPositiveSeconds(ToNum(r.nextFundingTimestamp, now as real)))
  }

  /** The `bySymbol` Map `_getMarkPrices` builds from the first `n` rows. */
  function MarkPrices(rows: seq<MarkRow>, now: nat): JsMap<MarkPrice>
    decreases |rows|
  {
    if |rows| == 0 then Empty()
    else
      var n := |rows| - 1;
      var pre := MarkPrices(rows[..n], now);
      var sym := Upper(rows[n].symbol);
      if sym == "" then pre else Set(pre, sym, MarkEntry(rows[n], now))
  }

  /** Some row has the upper-cased symbol `k`. */
  ghost predicate SymbolOfSomeRow(rows: seq<MarkRow>, k: string) {
    exists i :: 0 <= i < |rows| && Upper(rows[i].symbol) == k
  }

  /** The Map is well formed and holds only the non-empty symbols of the rows. */
  lemma {:induction false} MarkPricesKeys(rows: seq<MarkRow>, now: nat)
    ensures Valid(MarkPrices(rows, now))
    ensures forall k :: k in MarkPrices(rows, now).values ==> k != "" && SymbolOfSomeRow(rows, k)
    decreases |rows|
  {
    if |rows| > 0 {
      var n := |rows| - 1;
      var pre := MarkPrices(rows[..n], now);
      var sym := Upper(rows[n].symbol);
      MarkPricesKeys(rows[..n], now);
      forall k | k in pre.values
        ensures SymbolOfSomeRow(rows, k)
      {
        assert SymbolOfSomeRow(rows[..n], k);
        var i :| 0 <= i < n && Upper(rows[..n][i].symbol) == k;
        assert rows[i] == rows[..n][i];
      }
      if sym != "" {
        SetValid(pre, sym, MarkEntry(rows[n], now));
        assert SymbolOfSomeRow(rows, sym);
      }
    }
  }

  lemma MarkPricesStep(rows: seq<MarkRow>, now: nat)
    requires |rows| > 0
    ensures var n := |rows| - 1; var sym := Upper(rows[n].symbol);
      MarkPrices(rows, now) == if sym == "" then MarkPrices(rows[..n], now) else Set(MarkPrices(rows[..n], now), sym, MarkEntry(rows[n], now))
  {
  }

  /** Each symbol holds the entry of the last row with that symbol. */
  lemma {:induction false} MarkPricesLastRowWins(rows: seq<MarkRow>, now: nat, i: nat)
    requires i < |rows| && Upper(rows[i].symbol) != ""
    requires forall j :: i < j < |rows| ==> Upper(rows[j].symbol) != Upper(rows[i].symbol)
    ensures Upper(rows[i].symbol) in MarkPrices(rows, now).values
    ensures MarkPrices(rows, now).values[Upper(rows[i].symbol)] == MarkEntry(rows[i], now)
    decreases |rows|
  {
    var n := |rows| - 1;
    var key := Upper(rows[i].symbol);
    var sym := Upper(rows[n].symbol);
    var e := MarkEntry(rows[n], now);
    MarkPricesStep(rows, now);
    if i == n {
      assert MarkPrices(rows, now) == Set(MarkPrices(rows[..n], now), sym, e);
    } else {
      var pre := MarkPrices(rows[..n], now);
      assert rows[..n][i] == rows[i];
      forall j | i < j < n
        ensures Upper(rows[..n][j].symbol) != Upper(rows[..n][i].symbol)
      {
        assert rows[..n][j] == rows[j];
      }
      MarkPricesLastRowWins(rows[..n], now, i);
      assert key in pre.values && pre.values[key] == MarkEntry(rows[i], now);
      assert sym != key;
      if sym != "" {
        assert MarkPrices(rows, now).values == pre.values[sym := e];
      }
    }
  }

  /** The `bySymbol` Map `_getOpenInterest` builds: symbol to `toNum(openInterest, NaN)`. */
  function OpenInterest(rows: seq<OiRow>): (m: map<string, Option<real>>)
    ensures forall k :: k in m ==> k != ""
    decreases |rows|
  {
    if |rows| == 0 then map[]
    else
      var n := |rows| - 1;
      var pre := OpenInterest(rows[..n]);
      var sym := Upper(rows[n].symbol);
      if sym != "" then pre[sym := NumberOf(rows[n].openInterest)] else pre
  }

  /** `_getMarkPrices()` after its fetch: the loop over the rows. */
  method BuildMarkPrices(json: Response<MarkRow>, now: nat) returns (bySymbol: JsMap<MarkPrice>)
    ensures bySymbol == MarkPrices(RowsOf(json), now)
  {
    var arr := RowsOf(json);
    bySymbol := Empty();
    var i := 0;
    while i < |arr|
      invariant i <= |arr|
      invariant bySymbol == MarkPrices(arr[..i], now)
    {
      var sym := Upper(arr[i].symbol);
      assert arr[..i + 1][..i] == arr[..i];
      MarkPricesStep(arr[..i + 1], now);
      if sym != "" {
        var fr := ToNum(arr[i].fundingRate, 0.0);
        var nft := ToNum(arr[i].nextFundingTimestamp, now as real);
        if nft > 0.0 && nft < Threshold {
          nft := nft * 1000.0;
        }
        bySymbol := Set(bySymbol, sym, MarkPrice(fr, nft));
      }
      i := i + 1;
    }
    assert arr[..i] == arr;
  }

  /** `_getOpenInterest()` after its fetch. */
  method BuildOpenInterest(json: Response<OiRow>) returns (bySymbol: map<string, Option<real>>)
    ensures bySymbol == OpenInterest(RowsOf(json))
    ensures forall k :: k in bySymbol ==> k != ""
  {
    var arr := RowsOf(json);
    bySymbol := map[];
    var i := 0;
    while i < |arr|
      invariant i <= |arr|
      invariant bySymbol == OpenInterest(arr[..i])
    {
      var sym := Upper(arr[i].symbol);
      var oi := NumberOf(arr[i].openInterest);
      assert arr[..i + 1][..i] == arr[..i];
      if sym != "" {
        bySymbol := bySymbol[sym := oi];
      }
      i := i + 1;
    }
    assert arr[..i] == arr;
  }

  // ------------------------------------------------------------------
  // Winners
  // ------------------------------------------------------------------

  /** `oiBySym.get(sym)`: None for a missing symbol or a NaN value. */
  function OiOf(oi: map<string, Option<real>>, sym: string): Option<real> {
    if sym in oi then oi[sym] else None
  }

  /** The symbols `_selectWinners` considers: perpetuals whose base is non-empty and allowed. */
  predicate Eligible(allowed: set<string>, sym: string) {
    IsPerpSymbol(Upper(sym)) && SymbolBase(Upper(sym)) != "" && SymbolBase(Upper(sym)) in allowed
  }

  /** The rows `_selectWinners` offers to the `grouped` Map, in key order. */
  function Candidates(keys: seq<string>, allowed: set<string>, priority: seq<string>, oi: map<string, Option<real>>)
    : seq<Winners.Candidate<string>>
    decreases |keys|
  {
    if |keys| == 0 then []
    else
      var n := |keys| - 1;
      var pre := Candidates(keys[..n], allowed, priority, oi);
      if Eligible(allowed, keys[n]) then pre + [CandidateOf(priority, oi, keys[n])] else pre
  }

  /** A candidate row: an allowed perpetual under its base, scored by its
      quote rank, with its open interest (0 when unknown). */
  predicate CandidateRow(allowed: set<string>, priority: seq<string>, oi: map<string, Option<real>>, c: Winners.Candidate<string>) {
    && IsPerpSymbol(c.payload) && c.base == SymbolBase(c.payload) && c.base in allowed && c.base != ""
    && c.score == RankByQuote(priority, c.payload) && c.oi == OiOf(oi, c.payload).GetOr(0.0)
  }

  /** The row offered for an eligible symbol. */
  function CandidateOf(priority: seq<string>, oi: map<string, Option<real>>, key: string): Winners.Candidate<string> {
    var sym := Upper(key);
    Winners.Candidate(SymbolBase(sym), RankByQuote(priority, sym), OiOf(oi, sym).GetOr(0.0), sym)
  }

  lemma CandidatesStep(keys: seq<string>, allowed: set<string>, priority: seq<string>, oi: map<string, Option<real>>)
    requires |keys| > 0
    ensures var n := |keys| - 1;
      Candidates(keys, allowed, priority, oi) ==
        Candidates(keys[..n], allowed, priority, oi) + (if Eligible(allowed, keys[n]) then [CandidateOf(priority, oi, keys[n])] else [])
  {
  }

  predicate NoneEligible(allowed: set<string>, keys: seq<string>) {
    forall i :: 0 <= i < |keys| ==> !Eligible(allowed, keys[i])
  }

  lemma NoneEligibleStep(allowed: set<string>, keys: seq<string>)
    requires |keys| > 0
    ensures NoneEligible(allowed, keys) <==>
      NoneEligible(allowed, keys[..|keys| - 1]) && !Eligible(allowed, keys[|keys| - 1])
  {
    var n := |keys| - 1;
    assert forall i :: 0 <= i < n ==> keys[..n][i] == keys[i];
  }

  /** Some row is offered exactly when some symbol is eligible. */
  lemma {:induction false} CandidatesEmpty(keys: seq<string>, allowed: set<string>, priority: seq<string>, oi: map<string, Option<real>>)
    ensures |Candidates(keys, allowed, priority, oi)| == 0 <==> NoneEligible(allowed, keys)
    decreases |keys|
  {
    if |keys| > 0 {
      var n := |keys| - 1;
      CandidatesEmpty(keys[..n], allowed, priority, oi);
      CandidatesStep(keys, allowed, priority, oi);
      NoneEligibleStep(allowed, keys);
    }
  }

  /** Every offered row is a candidate row. */
  lemma {:induction false} CandidatesRows(keys: seq<string>, allowed: set<string>, priority: seq<string>, oi: map<string, Option<real>>)
    ensures var r := Candidates(keys, allowed, priority, oi);
      forall k :: 0 <= k < |r| ==> CandidateRow(allowed, priority, oi, r[k])
    decreases |keys|
  {
    if |keys| > 0 {
      var n := |keys| - 1;
      var pre := Candidates(keys[..n], allowed, priority, oi);
      var r := Candidates(keys, allowed, priority, oi);
      CandidatesRows(keys[..n], allowed, priority, oi);
      CandidatesStep(keys, allowed, priority, oi);
      if Eligible(allowed, keys[n]) {
        var c := CandidateOf(priority, oi, keys[n]);
        assert CandidateRow(allowed, priority, oi, c);
        forall k | 0 <= k < |r|
          ensures CandidateRow(allowed, priority, oi, r[k])
        {
          if k < |pre| {
            assert r[k] == pre[k];
          }
        }
      }
    }
  }

  /** What `_selectWinners(markPricesBySym, oiBySym)` returns over the symbols `keys`. */
  function WinnersOf(keys: seq<string>, allowed: set<string>, priority: seq<string>, oi: map<string, Option<real>>)
    : seq<Winners.Winner<string>>
  {
    var cands := Candidates(keys, allowed, priority, oi);
    Winners.FoldWellFormed(cands, true);
    Winners.Entries(Winners.Fold(cands, true))
  }

  /** One `{pair, symbol}` per allowed base: the perpetual of highest quote
      rank, then of larger open interest, then first seen; none exactly when no
      symbol is eligible. */
  lemma WinnersOfProperties(keys: seq<string>, allowed: set<string>, priority: seq<string>, oi: map<string, Option<real>>)
    ensures var w := WinnersOf(keys, allowed, priority, oi);
      && Distinct(seq(|w|, k requires 0 <= k < |w| => w[k].pair))
      && (forall k :: 0 <= k < |w| ==> w[k].pair in allowed && IsPerpSymbol(w[k].payload) && SymbolBase(w[k].payload) == w[k].pair)
      && (forall k :: 0 <= k < |w| ==> Winners.WinnerOf(Candidates(keys, allowed, priority, oi), true, w[k]))
      && (|w| == 0 <==> NoneEligible(allowed, keys))
  {
    var cands := Candidates(keys, allowed, priority, oi);
    CandidatesEmpty(keys, allowed, priority, oi);
    CandidatesRows(keys, allowed, priority, oi);
    Winners.EntriesProperties(cands, true);
    var w := Winners.Entries(Winners.Fold(cands, true));
    forall k | 0 <= k < |w|
      ensures w[k].pair in allowed && IsPerpSymbol(w[k].payload) && SymbolBase(w[k].payload) == w[k].pair
    {
      assert Winners.WinnerOf(cands, true, w[k]);
    }
  }

  /** `_selectWinners`: the `grouped` loop. */
  method SelectWinners(keys: seq<string>, allowed: set<string>, priority: seq<string>, oi: map<string, Option<real>>)
    returns (w: seq<Winners.Winner<string>>)
    ensures w == WinnersOf(keys, allowed, priority, oi)
  {
    w := Winners.Select(Candidates(keys, allowed, priority, oi), true);
  }

  /** The data sent for a winning symbol: long and short liquidity are half
      the open interest each, or 1 000 000 each when it is unknown. */
  function WinnerData(symbol: string, marks: JsMap<MarkPrice>, oi: map<string, Option<real>>, now: nat): (d: Base.FundingData)
    ensures d.fees == Base.Fees(0.0002, 0.0005)
    ensures d.liquidity.Liquidity? && d.liquidity.long == d.liquidity.short
    ensures OiOf(oi, symbol).Some? ==> d.liquidity.long + d.liquidity.short == OiOf(oi, symbol).value
    ensures OiOf(oi, symbol).None? ==> d.liquidity.long == 1000000.0
    ensures symbol in marks.values ==> d.rate == marks.values[symbol].rate && d.next == marks.values[symbol].next
    ensures symbol !in marks.values ==> d.rate == 0.0 && d.next == now as real
  {
    var rate := if symbol in marks.values then marks.values[symbol].rate else 0.0;
    var next := if symbol in marks.values then marks.values[symbol].next else now as real;
    var liquidity := match OiOf(oi, symbol)
      case Some(x) => Base.Liquidity(x * 0.5, x * 0.5)
      case None => Base.Liquidity(1000000.0, 1000000.0);
    Base.FundingData(rate, next, liquidity, Base.Fees(0.0002, 0.0005))
  }

  /** The updates one `collectAndSend()` cycle sends, in order. */
  function Plan(marks: JsMap<MarkPrice>, oi: map<string, Option<real>>, allowed: set<string>, priority: seq<string>, now: nat)
    : (items: seq<Base.Item>)
    ensures |items| == |WinnersOf(marks.keys, allowed, priority, oi)|
  {
    var w := WinnersOf(marks.keys, allowed, priority, oi);
    seq(|w|, k requires 0 <= k < |w| => Base.Item(w[k].pair, WinnerData(w[k].payload, marks, oi, now)))
  }

  /** A cycle sends at most one update per pair, and only for allowed pairs. */
  lemma PlanOnePerPair(marks: JsMap<MarkPrice>, oi: map<string, Option<real>>, allowed: set<string>, priority: seq<string>, now: nat)
    ensures var items := Plan(marks, oi, allowed, priority, now);
      && (forall k :: 0 <= k < |items| ==> items[k].pair in allowed)
      && (forall j, k :: 0 <= j < k < |items| ==> items[j].pair != items[k].pair)
  {
    var w := WinnersOf(marks.keys, allowed, priority, oi);
    WinnersOfProperties(marks.keys, allowed, priority, oi);
    var pairs := seq(|w|, k requires 0 <= k < |w| => w[k].pair);
    forall j, k | 0 <= j < k < |w| ensures w[j].pair != w[k].pair {
      assert pairs[j] == w[j].pair && pairs[k] == w[k].pair;
    }
  }

  /** The symbols of the mark-price Map whose base is `base`, in order. */
  function KeysWithBase(keys: seq<string>, base: string): (r: seq<string>)
    ensures forall x :: x in r <==> x in keys && IsPerpSymbol(Upper(x)) && SymbolBase(Upper(x)) == base
    decreases |keys|
  {
    if |keys| == 0 then []
    else
      var rest := KeysWithBase(keys[1..], base);
      if IsPerpSymbol(Upper(keys[0])) && SymbolBase(Upper(keys[0])) == base then [keys[0]] + rest else rest
  }

  /** The markets cache: when it was filled and the list (null until filled). */
  datatype MarketsCache = MarketsCache(ts: nat, list: Option<seq<JsValue>>)

  /** `this._marketsCache.list && (now - ts) < TTL`: an empty list still counts. */
  predicate CacheHit(c: MarketsCache, now: nat, ttl: real) {
    c.list.Some? && ((now - c.ts) as real) < ttl
  }

  class BackpackCollector {
    const base: Base.Collector
    const allowedPairs: set<string>
    const priority: seq<string>
    const marketsTtl: real
    var marketsCache: MarketsCache

    /** `new BackpackCollector(walletPath, options)`: the allowed pairs are
        `options.allowedPairs`, else the configured pairs, overridden by
        `ALLOWED_PAIRS`. */
    constructor(b: Base.Collector, optionPairs: Option<seq<string>>, allowedEnv: Option<string>,
                priorityEnv: Option<string>, ttl: real)
      ensures base == b && marketsTtl == ttl && priority == QuotePriority(priorityEnv)
      ensures allowedPairs == Base.ParseAllowedPairs(optionPairs.GetOr(b.cfg.pairs), allowedEnv)
      ensures marketsCache == MarketsCache(0, None)
    {
      base := b;
      allowedPairs := Base.ParseAllowedPairs(optionPairs.GetOr(b.cfg.pairs), allowedEnv);
      priority := QuotePriority(priorityEnv);
      marketsTtl := ttl;
      marketsCache := MarketsCache(0, None);
    }

    /** `_getMarkets()` at clock reading `now`; `fetched` is what the retried
        request gave. A fresh cache is returned without using it. */
    method GetMarkets(now: nat, fetched: Result<Response<JsValue>, string>) returns (r: Result<seq<JsValue>, string>)
      modifies this
      ensures CacheHit(old(marketsCache), now, marketsTtl) ==>
        r == Ok(old(marketsCache).list.value) && marketsCache == old(marketsCache)
      ensures !CacheHit(old(marketsCache), now, marketsTtl) && fetched.Err? ==>
        r == Err(fetched.error) && marketsCache == old(marketsCache)
      ensures !CacheHit(old(marketsCache), now, marketsTtl) && fetched.Ok? ==>
        r == Ok(RowsOf(fetched.value)) && marketsCache == MarketsCache(now, Some(RowsOf(fetched.value)))
    {
      if marketsCache.list.Some? && ((now - marketsCache.ts) as real) < marketsTtl {
        return Ok(marketsCache.list.value);
      }
      match fetched {
        case Err(e) =>
          return Err(e);
        case Ok(json) =>
          var list := RowsOf(json);
          marketsCache := MarketsCache(now, Some(list));
          return Ok(list);
      }
    }

    /**
     * `collectAndSend()`: fetch mark prices and open interest, pick the
     * winners, and send one update per winner (see `Plan`). `clock(i)` and
     * `deliver(i)` are the clock reading and delivery attempts of the i-th send.
     */
    method CollectAndSend(marks: Result<Response<MarkRow>, string>, ois: Result<Response<OiRow>, string>, now: nat,
                          clock: nat -> nat, deliver: nat -> nat -> Result<string, string>)
      returns (report: Base.Report)
      modifies base
      ensures report.CollectFailed? <==> marks.Err? || ois.Err?
      ensures !report.Sent? ==> base.lastSent == old(base.lastSent)
      ensures marks.Ok? && ois.Ok? ==>
        var plan := Plan(MarkPrices(RowsOf(marks.value), now), OpenInterest(RowsOf(ois.value)), allowedPairs, priority, now);
        && (report.NothingToSend? <==> plan == [])
        && (report.Sent? ==>
              report.sent == |plan| &&
              (report.outcomes, base.lastSent) == Base.Batch(base.dex, base.cfg, old(base.lastSent), plan, clock, deliver))
    {
      if marks.Err? {
        return Base.CollectFailed(marks.error);
      }
      if ois.Err? {
        return Base.CollectFailed(ois.error);
      }
      var marksBySym := BuildMarkPrices(marks.value, now);
      var oiBySym := BuildOpenInterest(ois.value);
      var winners := SelectWinners(marksBySym.keys, allowedPairs, priority, oiBySym);
      if |winners| == 0 {
        return Base.NothingToSend;
      }
      var items := Plan(marksBySym, oiBySym, allowedPairs, priority, now);
      var sent, outcomes := base.SendBatch(items, clock, deliver);
      report := Base.Sent(sent, outcomes);
    }

    /** `collectFundingData(pair)`: the winner among the perpetuals of base
        `pair`; an error when there is none or the base is not allowed. */
    method CollectFundingData(pair: string, marks: Result<Response<MarkRow>, string>, ois: Result<Response<OiRow>, string>, now: nat)
      returns (r: Result<Base.FundingData, string>)
      ensures r.Err? <==> (marks.Err? || ois.Err? || Upper(pair) !in allowedPairs || Upper(pair) == "" ||
        forall k :: k in MarkPrices(RowsOf(marks.value), now).keys ==> !(IsPerpSymbol(Upper(k)) && SymbolBase(Upper(k)) == Upper(pair)))
      ensures r.Ok? ==>
        var mp := MarkPrices(RowsOf(marks.value), now);
        var oi := OpenInterest(RowsOf(ois.value));
        var w := WinnersOf(KeysWithBase(mp.keys, Upper(pair)), allowedPairs, priority, oi);
        |w| > 0 && r.value == WinnerData(w[0].payload, mp, oi, now)
      ensures r.Ok? ==> r.value.fees == Base.Fees(0.0002, 0.0005)
    {
      if marks.Err? {
        return Err(marks.error);
      }
      if ois.Err? {
        return Err(ois.error);
      }
      var marksBySym := BuildMarkPrices(marks.value, now);
      var oiBySym := BuildOpenInterest(ois.value);
      var b := Upper(pair);
      var sub := KeysWithBase(marksBySym.keys, b);
      var winners := SelectWinners(sub, allowedPairs, priority, oiBySym);
      WinnersOfProperties(sub, allowedPairs, priority, oiBySym);
      if |winners| == 0 {
        OnlyBaseSymbols(marksBySym.keys, b, allowedPairs);
        return Err("[Backpack] Market introuvable pour " + pair);
      }
      OnlyBaseSymbols(marksBySym.keys, b, allowedPairs);
      r := Ok(WinnerData(winners[0].payload, marksBySym, oiBySym, now));
    }
  }

  /** Among the perpetuals of base `b`, one is eligible iff `b` is non-empty
      and allowed and such a perpetual exists. */
  lemma OnlyBaseSymbols(keys: seq<string>, b: string, allowed: set<string>)
    ensures NoneEligible(allowed, KeysWithBase(keys, b)) <==>
      (b == "" || b !in allowed || forall k :: k in keys ==> !(IsPerpSymbol(Upper(k)) && SymbolBase(Upper(k)) == b))
  {
    var sub := KeysWithBase(keys, b);
    if b != "" && b in allowed && exists k :: k in keys && IsPerpSymbol(Upper(k)) && SymbolBase(Upper(k)) == b {
      var k :| k in keys && IsPerpSymbol(Upper(k)) && SymbolBase(Upper(k)) == b;
      assert k in sub;
      var i :| 0 <= i < |sub| && sub[i] == k;
      assert Eligible(allowed, sub[i]);
    }
  }
}
