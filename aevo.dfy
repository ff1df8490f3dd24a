/**
 * The Aevo adapter: instrument names such as `BTC-PERP`, the cached
 * `/markets` listing, one `/funding` request per allowed perpetual (failures
 * are skipped one by one), hourly funding and fixed liquidity and fees.
 */
module Aevo {
  import opened Wrappers
  import opened Strings
  import opened JsValues
  import Base

  // ------------------------------------------------------------------
  // baseFromInstrumentName
  // ------------------------------------------------------------------

  /** Where `/PERP.*$/` (no flags) matches: "PERP" at `i`, then characters
      `.` matches, that is no line terminator, up to the end of the input. */
  predicate PerpMatchAt(s: string, i: int) {
    OccursAt(s, "PERP", i) && forall k :: i + 4 <= k < |s| ==> !IsLineTerminator(s[k])
  }

  /** The leftmost match at or after `from`, or -1. */
  function FirstPerpMatch(s: string, from: nat): (r: int)
    requires from <= |s|
    ensures r == -1 || from <= r <= |s| - 4
    decreases |s| - from
  {
    if |s| < from + 4 then -1
    else if PerpMatchAt(s, from) then from
    else FirstPerpMatch(s, from + 1)
  }

  /** `FirstPerpMatch` finds a match, and none starts between `from` and it. */
  lemma {:induction false} FirstPerpMatchIsLeftmost(s: string, from: nat)
    requires from <= |s|
    ensures var r := FirstPerpMatch(s, from);
      (r == -1 || PerpMatchAt(s, r)) &&
      forall j :: from <= j && (r == -1 || j < r) ==> !PerpMatchAt(s, j)
    decreases |s| - from
  {
    if |s| >= from + 4 && !PerpMatchAt(s, from) {
      FirstPerpMatchIsLeftmost(s, from + 1);
    }
  }

  /** `S.replace(/PERP.*$/, '')`: the input up to its leftmost match (the
      match runs to the end of the input), or the whole input when nothing
      matches. A "PERP" followed later by a line terminator does not match. */
  function CutPerp(s: string): (r: string)
    ensures StartsWith(s, r)
  {
    var i := FirstPerpMatch(s, 0);
    if i < 0 then s else s[..i]
  }

  /** Nothing is cut exactly when nothing matches; otherwise the cut is at
      a match and no match starts earlier. */
  lemma CutPerpAtLeftmostMatch(s: string)
    ensures var r := CutPerp(s);
      && (r == s <==> forall i :: !PerpMatchAt(s, i))
      && (r != s ==> PerpMatchAt(s, |r|))
      && (forall j :: 0 <= j < |r| ==> !PerpMatchAt(s, j))
      && (!Contains(s, "PERP") ==> r == s)
  {
    FirstPerpMatchIsLeftmost(s, 0);
  }

  /** `.replace(/[^A-Z]/g, '')`. */
  function Letters(s: string): (r: string)
    ensures |r| <= |s|
    ensures forall k :: 0 <= k < |r| ==> IsUpperAscii(r[k])
    ensures (forall k :: 0 <= k < |s| ==> IsUpperAscii(s[k])) ==> r == s
    decreases |s|
  {
    if |s| == 0 then ""
    else if IsUpperAscii(s[0]) then [s[0]] + Letters(s[1..])
    else Letters(s[1..])
  }

  /** One character: a capital is kept, anything else is dropped. */
  lemma LettersOfChar(c: char)
    ensures Letters([c]) == if IsUpperAscii(c) then [c] else []
  {
    assert [c][1..] == [];
  }

  /** A string of capitals is its own letters. */
  lemma LettersOfCapitals(s: string)
    requires forall k :: 0 <= k < |s| ==> IsUpperAscii(s[k])
    ensures Letters(s) == s
  {
  }

  /** `Letters` works character by character, so it keeps every capital in order. */
  lemma {:induction false} LettersAppend(a: string, b: string)
    ensures Letters(a + b) == Letters(a) + Letters(b)
    decreases |a|
  {
    if |a| == 0 {
      assert a + b == b;
    } else {
      assert (a + b)[0] == a[0];
      assert (a + b)[1..] == a[1..] + b;
      LettersAppend(a[1..], b);
    }
  }

  /** `.slice(0, 4)`. */
  function FirstFour(l: string): (r: string)
    ensures |r| == if |l| <= 4 then |l| else 4
    ensures r == l[..|r|]
  {
    if |l| <= 4 then l else l[..4]
  }

  /** `baseFromInstrumentName(s)`. */
  function BaseFromInstrumentName(s: string): string {
    var S := Upper(s);
    if S == "" then ""
    else if '-' in S then BeforeFirst(S, '-')
    else if '_' in S then BeforeFirst(S, '_')
    else FirstFour(Letters(CutPerp(S)))
  }

  /** The text before the first '-', else before the first '_', else the first
      four capitals of the upper-cased name before its `/PERP.*$/` match. */
  lemma BaseFromInstrumentNameCases(s: string)
    ensures var r := BaseFromInstrumentName(s);
      && (s == "" ==> r == "")
      && ('-' in s ==> r == Upper(BeforeFirst(s, '-')))
      && ('-' !in s && '_' in s ==> r == Upper(BeforeFirst(s, '_')))
      && ('-' !in s && '_' !in s ==>
            var l := Letters(CutPerp(Upper(s)));
            |r| == (if |l| <= 4 then |l| else 4) && r == l[..|r|] &&
            (forall k :: 0 <= k < |r| ==> IsUpperAscii(r[k])))
      && '-' !in r && ('-' !in s ==> '_' !in r)
  {
    var S := Upper(s);
    UpperKeepsChar(s, '-');
    UpperKeepsChar(s, '_');
    BeforeFirstIsPrefix(S, '-');
    BeforeFirstIsPrefix(S, '_');
    if S != "" && '-' in S {
      BeforeFirstOfUpper(s, '-');
    } else if S != "" && '_' in S {
      BeforeFirstOfUpper(s, '_');
    }
  }

  lemma LettersSkip(s: string)
    requires |s| > 0 && !IsUpperAscii(s[0])
    ensures Letters(s) == Letters(s[1..])
  {
  }

  /** A string without lower-case letters is its own upper case. */
  lemma CapitalsUnchanged(s: string)
    requires forall k :: 0 <= k < |s| ==> !IsLowerAscii(s[k])
    ensures Upper(s) == s
  {
  }

  /** No "PERP" can start inside a prefix that has no 'P'. */
  lemma NoPerpStartsIn(a: string)
    requires forall k :: 0 <= k < |a| ==> a[k] != 'P'
    ensures !Contains(a + "PER", "PERP")
  {
    var x := a + "PER";
    forall j | 0 <= j < |a| ensures !OccursAt(x, "PERP", j) {
      assert x[j] == a[j] != 'P';
    }
  }

  /** The cut falls at the leftmost match. */
  lemma CutPerpAt(s: string, i: nat)
    requires PerpMatchAt(s, i)
    requires forall j :: 0 <= j < i ==> !PerpMatchAt(s, j)
    ensures CutPerp(s) == s[..i]
  {
    CutPerpAtLeftmostMatch(s);
  }

  /** Nothing is cut when there is no match. */
  lemma CutPerpNone(s: string)
    requires forall i :: !PerpMatchAt(s, i)
    ensures CutPerp(s) == s
  {
    CutPerpAtLeftmostMatch(s);
  }

  /** `A + "PERP" + B` is cut right after `A` when no "PERP" starts inside
      `A` and no line terminator follows. */
  lemma CutPerpAfter(A: string, B: string)
    requires !Contains(A + "PER", "PERP")
    requires forall k :: 0 <= k < |B| ==> !IsLineTerminator(B[k])
    ensures CutPerp(A + "PERP" + B) == A
  {
    var S := A + "PERP" + B;
    assert PerpMatchAt(S, |A|) by {
      assert S[|A|..|A| + 4] == "PERP";
      forall k | |A| + 4 <= k < |S| ensures !IsLineTerminator(S[k]) {
        assert S[k] == B[k - |A| - 4];
      }
    }
    forall j | 0 <= j < |A| ensures !PerpMatchAt(S, j) {
      if OccursAt(S, "PERP", j) {
        assert S[j..j + 4] == (A + "PER")[j..j + 4];
        ContainsAt(A + "PER", "PERP", j);
      }
    }
    CutPerpAt(S, |A|);
    assert S[..|A|] == A;
  }

  /** A name that ends in a line terminator is never cut: `.` cannot cross
      the terminator, and "PERP" itself does not end in one. */
  lemma TrailingLineBreakNotCut(s: string)
    requires |s| > 0 && IsLineTerminator(s[|s| - 1])
    ensures CutPerp(s) == s
  {
    forall i | OccursAt(s, "PERP", i) ensures !PerpMatchAt(s, i) {
      assert s[i..i + 4][3] == s[i + 3] == 'P';
      assert i + 4 <= |s| - 1;
    }
    CutPerpNone(s);
  }

  /** Upper-casing a name built around "PERP". */
  lemma UpperAroundPerp(a: string, b: string)
    ensures Upper(a + "PERP" + b) == Upper(a) + "PERP" + Upper(b)
  {
    UpperAppend(a + "PERP", b);
    UpperAppend(a, "PERP");
    CapitalsUnchanged("PERP");
  }

  /**
   * A separator-free name `a + "PERP" + b` whose only "PERP" match starts
   * right after `a` (no "PERP" begins inside `a`, no line terminator follows):
   * the base is at most the first four capitals of the upper-cased `a`.
   */
  lemma NameWithoutSeparator(a: string, b: string)
    requires '-' !in a + b && '_' !in a + b
    requires !Contains(Upper(a) + "PER", "PERP")
    requires forall k :: 0 <= k < |b| ==> !IsLineTerminator(b[k])
    ensures BaseFromInstrumentName(a + "PERP" + b) == FirstFour(Letters(Upper(a)))
  {
    var s := a + "PERP" + b;
    var B := Upper(b);
    UpperAroundPerp(a, b);
    forall k | 0 <= k < |B| ensures !IsLineTerminator(B[k]) {
      assert B[k] == UpperChar(b[k]);
    }
    CutPerpAfter(Upper(a), B);
    UpperKeepsChar(s, '-');
    UpperKeepsChar(s, '_');
    assert |Upper(s)| == |s| > 0;
  }

  /** Worked example: without a separator the name is cut at PERP. */
  lemma BareName(s: string)
    requires s == "BTCPERP"
    ensures BaseFromInstrumentName(s) == "BTC"
  {
    assert s == "BTC" + "PERP" + "";
    CapitalsUnchanged("BTC");
    NoPerpStartsIn("BTC");
    NameWithoutSeparator("BTC", "");
  }

  /** Worked example: digits are dropped, so the 1INCH perpetual is filed under INCH. */
  lemma DigitsDropped(s: string)
    requires s == "1INCHPERP"
    ensures BaseFromInstrumentName(s) == "INCH"
  {
    var a := "1INCH";
    assert s == a + "PERP" + "";
    CapitalsUnchanged(a);
    NoPerpStartsIn(a);
    NameWithoutSeparator(a, "");
    LettersSkip(a);
    assert a[1..] == "INCH";
  }

  /** A separator-free name that ends in a line terminator keeps all its
      capitals, "PERP" included, before the first four are taken. */
  lemma NameEndingInLineBreak(s: string)
    requires '-' !in s && '_' !in s
    requires |s| > 0 && IsLineTerminator(s[|s| - 1])
    ensures BaseFromInstrumentName(s) == FirstFour(Letters(Upper(s)))
  {
    var S := Upper(s);
    UpperKeepsChar(s, '-');
    UpperKeepsChar(s, '_');
    assert S[|S| - 1] == UpperChar(s[|s| - 1]) == s[|s| - 1];
    TrailingLineBreakNotCut(S);
  }

  /** Capitals followed by a line terminator: the first four capitals, even
      when "PERP" is among them. */
  lemma CapitalsThenLineBreak(c: string, t: char)
    requires forall k :: 0 <= k < |c| ==> IsUpperAscii(c[k])
    requires IsLineTerminator(t)
    ensures BaseFromInstrumentName(c + [t]) == FirstFour(c)
  {
    var s := c + [t];
    assert forall k :: 0 <= k < |s| ==> !IsLowerAscii(s[k]) && s[k] != '-' && s[k] != '_' by {
      assert forall k :: 0 <= k < |c| ==> s[k] == c[k];
    }
    NameEndingInLineBreak(s);
    CapitalsUnchanged(s);
    LettersAppend(c, [t]);
    LettersOfChar(t);
    LettersOfCapitals(c);
  }

  /** Worked example: a line break after PERP stops `/PERP.*$/` from matching,
      so nothing is cut and the first four capitals are BTCP. */
  lemma LineBreakAfterPerp(s: string)
    requires s == "BTCPERP\n"
    ensures BaseFromInstrumentName(s) == "BTCP"
  {
    var caps := "BTCPERP";
    assert s == caps + ['\n'];
    CapitalsThenLineBreak(caps, '\n');
  }

  lemma NameWithDash(s: string)
    requires '-' in s
    ensures BaseFromInstrumentName(s) == Upper(BeforeFirst(s, '-'))
  {
    UpperKeepsChar(s, '-');
    BeforeFirstOfUpper(s, '-');
  }

  lemma NameWithUnderscore(s: string)
    requires '-' !in s && '_' in s
    ensures BaseFromInstrumentName(s) == Upper(BeforeFirst(s, '_'))
  {
    UpperKeepsChar(s, '-');
    UpperKeepsChar(s, '_');
    BeforeFirstOfUpper(s, '_');
  }

  /** Worked example: a dash separates the base, whatever the case. */
  lemma DashedName(s: string)
    requires s == "btc-perp"
    ensures BaseFromInstrumentName(s) == "BTC"
  {
    assert s[3] == '-';
    NameWithDash(s);
    assert '-' !in s[..3];
    BeforeFirstAt(s, '-', 3);
    assert s[..3] == "btc";
  }

  /** Worked example: without a dash, an underscore separates the base. */
  lemma UnderscoreName(s: string)
    requires s == "ETH_PERP"
    ensures BaseFromInstrumentName(s) == "ETH"
  {
    assert '-' !in s && s[3] == '_';
    NameWithUnderscore(s);
    assert '_' !in s[..3];
    BeforeFirstAt(s, '_', 3);
    CapitalsUnchanged(s[..3]);
    assert s[..3] == "ETH";
  }

  // ------------------------------------------------------------------
  // _getMarkets
  // ------------------------------------------------------------------

  /** A `/markets` entry; each text field is `String(...)` of that JSON field,
      "" when it is absent or falsy. */
  datatype MarketRow = MarketRow(instrumentName: string, instrument: string, symbol: string, name: string,
                                 kind: string, productType: string)

  /** A normalised instrument: an upper-cased name and a lower-cased type. */
  datatype Instrument = Instrument(name: string, kind: string)

  /** `x.instrument_name || x.instrument || x.symbol || x.name || ''`. */
  function RawName(x: MarketRow): string {
    if x.instrumentName != "" then x.instrumentName
    else if x.instrument != "" then x.instrument
    else if x.symbol != "" then x.symbol
    else x.name
  }

  function Normalise(x: MarketRow): Instrument {
    Instrument(Upper(RawName(x)), Lower(if x.kind != "" then x.kind else x.productType))
  }

  /** A normalised name is upper case, its type lower case, and the name is
      empty only when every name field is. */
  lemma NormaliseShape(x: MarketRow)
    ensures IsUpper(Normalise(x).name) && IsLower(Normalise(x).kind)
    ensures (Normalise(x).name == "") <==> (x.instrumentName == "" && x.instrument == "" && x.symbol == "" && x.name == "")
  {
    UpperIsUpper(RawName(x));
    LowerIsLower(if x.kind != "" then x.kind else x.productType);
  }

  /** `x` is the normalisation of some row. */
  ghost predicate NormalisedFrom(rows: seq<MarketRow>, x: Instrument) {
    exists i :: 0 <= i < |rows| && x == Normalise(rows[i])
  }

  /** What a kept instrument satisfies. */
  ghost predicate KeptFrom(rows: seq<MarketRow>, x: Instrument) {
    |x.name| > 0 && NormalisedFrom(rows, x) && IsUpper(x.name) && IsLower(x.kind)
  }

  /** The `instruments` list: the normalised entries with a non-empty name, in order. */
  function Instruments(rows: seq<MarketRow>): seq<Instrument>
    decreases |rows|
  {
    if |rows| == 0 then []
    else
      var n := |rows| - 1;
      var x := Normalise(rows[n]);
      if |x.name| > 0 then Instruments(rows[..n]) + [x] else Instruments(rows[..n])
  }

  /** Every instrument kept is a normalised row with a non-empty, upper-case
      name and a lower-case type. */
  lemma {:induction false} InstrumentsSound(rows: seq<MarketRow>)
    ensures forall k :: 0 <= k < |Instruments(rows)| ==> KeptFrom(rows, Instruments(rows)[k])
    decreases |rows|
  {
    if |rows| > 0 {
      var n := |rows| - 1;
      InstrumentsSound(rows[..n]);
      var pre := Instruments(rows[..n]);
      var r := Instruments(rows);
      NormaliseShape(rows[n]);
      forall k | 0 <= k < |r|
        ensures KeptFrom(rows, r[k])
      {
        if k < |pre| {
          assert r[k] == pre[k] && KeptFrom(rows[..n], pre[k]);
          var i :| 0 <= i < n && pre[k] == Normalise(rows[..n][i]);
          assert rows[..n][i] == rows[i];
        } else {
          assert r[k] == Normalise(rows[n]);
        }
      }
    }
  }

  /** Every row with some name field set is kept. */
  lemma {:induction false} InstrumentsComplete(rows: seq<MarketRow>, i: int)
    requires 0 <= i < |rows| && |Normalise(rows[i]).name| > 0
    ensures Normalise(rows[i]) in Instruments(rows)
    decreases |rows|
  {
    var n := |rows| - 1;
    if i < n {
      assert rows[..n][i] == rows[i];
      InstrumentsComplete(rows[..n], i);
    }
  }

  /** The `/markets` body: an array, or an object with a `markets` or a `data` array. */
  datatype MarketsJson = ArrayBody(rows: seq<MarketRow>) | ObjectBody(markets: Option<seq<MarketRow>>, data: Option<seq<MarketRow>>)

  function RowsOf(json: MarketsJson): seq<MarketRow> {
    match json
    case ArrayBody(rows) => rows
    case ObjectBody(markets, data) => if markets.Some? then markets.value else data.GetOr([])
  }

  datatype MarketsCache = MarketsCache(ts: nat, markets: Option<seq<Instrument>>)

  /** An empty cached list is an array, hence truthy: it still counts. */
  predicate CacheHit(c: MarketsCache, now: nat, ttl: real) {
    c.markets.Some? && ((now - c.ts) as real) < ttl
  }

  /** What `_getMarkets()` returns from cache `c` at clock reading `now`. */
  function Served(c: MarketsCache, now: nat, ttl: real, fetched: Result<MarketsJson, string>): (r: Result<seq<Instrument>, string>)
    ensures CacheHit(c, now, ttl) ==> r == Ok(c.markets.value)
    ensures !CacheHit(c, now, ttl) ==> (r.Ok? <==> fetched.Ok?)
    ensures !CacheHit(c, now, ttl) && fetched.Ok? ==> r.value == Instruments(RowsOf(fetched.value))
  {
    if CacheHit(c, now, ttl) then Ok(c.markets.value)
    else if fetched.Err? then Err(fetched.error)
    else Ok(Instruments(RowsOf(fetched.value)))
  }

  // ------------------------------------------------------------------
  // Targets
  // ------------------------------------------------------------------

  /** `/PERP/i.test(name)`. */
  predicate IsPerp(name: string) {
    Contains(Upper(name), "PERP")
  }

  datatype Target = Target(instrument: string, pair: string)

  predicate IsTarget(allowed: set<string>, i: Instrument) {
    IsPerp(i.name) && BaseFromInstrumentName(i.name) != "" && BaseFromInstrumentName(i.name) in allowed
  }

  function TargetOf(i: Instrument): Target {
    Target(i.name, BaseFromInstrumentName(i.name))
  }

  ghost predicate TargetFrom(instruments: seq<Instrument>, allowed: set<string>, t: Target) {
    exists i :: 0 <= i < |instruments| && IsTarget(allowed, instruments[i]) && t == TargetOf(instruments[i])
  }

  /** The perpetuals whose base is non-empty and allowed, in listing order. */
  function Targets(instruments: seq<Instrument>, allowed: set<string>): seq<Target>
    decreases |instruments|
  {
    if |instruments| == 0 then []
    else
      var n := |instruments| - 1;
      var pre := Targets(instruments[..n], allowed);
      if IsTarget(allowed, instruments[n]) then pre + [TargetOf(instruments[n])] else pre
  }

  lemma TargetsStep(instruments: seq<Instrument>, allowed: set<string>)
    requires |instruments| > 0
    ensures var n := |instruments| - 1;
      Targets(instruments, allowed) ==
        Targets(instruments[..n], allowed) + (if IsTarget(allowed, instruments[n]) then [TargetOf(instruments[n])] else [])
  {
  }

  /** A target of a prefix is a target of the whole listing. */
  lemma TargetFromPrefix(instruments: seq<Instrument>, allowed: set<string>, n: nat, t: Target)
    requires n <= |instruments| && TargetFrom(instruments[..n], allowed, t)
    ensures TargetFrom(instruments, allowed, t)
  {
    var i :| 0 <= i < n && IsTarget(allowed, instruments[..n][i]) && t == TargetOf(instruments[..n][i]);
    assert instruments[..n][i] == instruments[i];
  }

  /** Every target comes from a perpetual with a non-empty, allowed base. */
  lemma {:induction false} TargetsSound(instruments: seq<Instrument>, allowed: set<string>)
    ensures forall k :: 0 <= k < |Targets(instruments, allowed)| ==> TargetFrom(instruments, allowed, Targets(instruments, allowed)[k])
    decreases |instruments|
  {
    if |instruments| > 0 {
      var n := |instruments| - 1;
      TargetsSound(instruments[..n], allowed);
      TargetsStep(instruments, allowed);
      var pre := Targets(instruments[..n], allowed);
      var r := Targets(instruments, allowed);
      forall k | 0 <= k < |r| ensures TargetFrom(instruments, allowed, r[k]) {
        if k < |pre| {
          assert r[k] == pre[k];
          TargetFromPrefix(instruments, allowed, n, pre[k]);
        } else {
          assert IsTarget(allowed, instruments[n]) && r[k] == TargetOf(instruments[n]);
        }
      }
    }
  }

  /** Every such perpetual is a target. */
  lemma {:induction false} TargetsComplete(instruments: seq<Instrument>, allowed: set<string>, i: int)
    requires 0 <= i < |instruments| && IsTarget(allowed, instruments[i])
    ensures TargetOf(instruments[i]) in Targets(instruments, allowed)
    decreases |instruments|
  {
    var n := |instruments| - 1;
    if i < n {
      assert instruments[..n][i] == instruments[i];
      TargetsComplete(instruments[..n], allowed, i);
    }
  }

  // ------------------------------------------------------------------
  // _getFunding
  // ------------------------------------------------------------------

  /** The `/funding` body's candidate fields; `data.*` are Undefined when `data` is absent. */
  datatype FundingJson = FundingJson(fundingRate: JsValue, fundingRateCamel: JsValue,
                                     dataFundingRate: JsValue, dataFundingRateCamel: JsValue)

  const HourMs: real := 3600000.0

  /** `_getFunding`: the first non-nullish field, coerced with default 0, and
      next funding one hour after `now`. */
  function FundingOf(json: FundingJson, now: nat): (f: Base.FundingData)
    ensures !IsNullish(json.fundingRate) ==> f.rate == ToNum(json.fundingRate, 0.0)
    ensures IsNullish(json.fundingRate) && !IsNullish(json.fundingRateCamel) ==> f.rate == ToNum(json.fundingRateCamel, 0.0)
    ensures IsNullish(json.fundingRate) && IsNullish(json.fundingRateCamel) && !IsNullish(json.dataFundingRate) ==>
      f.rate == ToNum(json.dataFundingRate, 0.0)
    ensures IsNullish(json.fundingRate) && IsNullish(json.fundingRateCamel) && IsNullish(json.dataFundingRate) ==>
      f.rate == ToNum(json.dataFundingRateCamel, 0.0)
    ensures f.next == now as real + HourMs
    ensures f.liquidity == Base.Liquidity(1000000.0, 1000000.0) && f.fees == Base.Fees(0.0005, 0.0008)
  {
    var v := Coalesce(json.fundingRate, Coalesce(json.fundingRateCamel, Coalesce(json.dataFundingRate, json.dataFundingRateCamel)));
    Base.FundingData(ToNum(v, 0.0), now as real + HourMs, Base.Liquidity(1000000.0, 1000000.0), Base.Fees(0.0005, 0.0008))
  }

  /** A present but non-numeric `funding_rate` gives 0; `??` does not fall
      through to the other fields. */
  lemma PresentFieldShadowsLater(json: FundingJson, now: nat)
    requires !IsNullish(json.fundingRate) && NumberOf(json.fundingRate).None?
    ensures FundingOf(json, now).rate == 0.0
  {
  }

  // ------------------------------------------------------------------
  // collectAndSend
  // ------------------------------------------------------------------

  /** What one target contributes, given the outcome of its retried `/funding`
      request: the update to send, or nothing when the request failed. */
  function ItemsOf(t: Target, fetchFunding: string -> Result<FundingJson, string>, now: nat): seq<Base.Item> {
    match fetchFunding(t.instrument)
    case Ok(json) => [Base.Item(t.pair, FundingOf(json, now))]
    case Err(_) => []
  }

  /** The updates sent: result `i` of `_runPool` comes from task `i`, and a
      result carrying an error is skipped. */
  function Plan(targets: seq<Target>, fetchFunding: string -> Result<FundingJson, string>, now: nat): seq<Base.Item>
    decreases |targets|
  {
    if |targets| == 0 then []
    else
      var n := |targets| - 1;
      Plan(targets[..n], fetchFunding, now) + ItemsOf(targets[n], fetchFunding, now)
  }

  /** At most one update per target; one per target when every request
      succeeds, none when every request fails. */
  lemma {:induction false} PlanSize(targets: seq<Target>, fetchFunding: string -> Result<FundingJson, string>, now: nat)
    ensures |Plan(targets, fetchFunding, now)| <= |targets|
    ensures (forall i :: 0 <= i < |targets| ==> fetchFunding(targets[i].instrument).Ok?) ==> |Plan(targets, fetchFunding, now)| == |targets|
    ensures (forall i :: 0 <= i < |targets| ==> fetchFunding(targets[i].instrument).Err?) ==> Plan(targets, fetchFunding, now) == []
    decreases |targets|
  {
    if |targets| > 0 {
      var n := |targets| - 1;
      var t := targets[n];
      assert forall i :: 0 <= i < n ==> targets[..n][i] == targets[i];
      PlanSize(targets[..n], fetchFunding, now);
      PlanStep(targets, fetchFunding, now);
      assert |ItemsOf(t, fetchFunding, now)| == if fetchFunding(t.instrument).Ok? then 1 else 0;
    }
  }

  /** The targets' contributions are independent: a failure removes only the
      update of its own target. */
  lemma {:induction false} PlanAppend(a: seq<Target>, b: seq<Target>, fetchFunding: string -> Result<FundingJson, string>, now: nat)
    ensures Plan(a + b, fetchFunding, now) == Plan(a, fetchFunding, now) + Plan(b, fetchFunding, now)
    decreases |b|
  {
    if |b| == 0 {
      assert a + b == a;
    } else {
      var n := |b| - 1;
      var ab := a + b;
      assert ab[..|ab| - 1] == a + b[..n];
      assert ab[|ab| - 1] == b[n];
      PlanStep(ab, fetchFunding, now);
      PlanStep(b, fetchFunding, now);
      PlanAppend(a, b[..n], fetchFunding, now);
    }
  }

  lemma PlanStep(targets: seq<Target>, fetchFunding: string -> Result<FundingJson, string>, now: nat)
    requires |targets| > 0
    ensures var n := |targets| - 1;
      Plan(targets, fetchFunding, now) == Plan(targets[..n], fetchFunding, now) + ItemsOf(targets[n], fetchFunding, now)
  {
  }

  /** One target on its own: its update exactly when its request succeeded. */
  lemma PlanOfOne(t: Target, fetchFunding: string -> Result<FundingJson, string>, now: nat)
    ensures Plan([t], fetchFunding, now) == ItemsOf(t, fetchFunding, now)
    ensures Plan([t], fetchFunding, now) == [] <==> fetchFunding(t.instrument).Err?
  {
    assert [t][..0] == [];
  }

  /** The first perpetual whose base is `want`, as `instruments.find(...)`. */
  predicate Wanted(want: string, i: Instrument) {
    BaseFromInstrumentName(i.name) == want && IsPerp(i.name)
  }

  function FindInstrument(instruments: seq<Instrument>, want: string): (r: Option<nat>)
    ensures r.Some? ==> (r.value < |instruments| && Wanted(want, instruments[r.value]) &&
      forall j :: 0 <= j < r.value ==> !Wanted(want, instruments[j]))
    ensures r.None? ==> forall j :: 0 <= j < |instruments| ==> !Wanted(want, instruments[j])
    decreases |instruments|
  {
    if |instruments| == 0 then None
    else if Wanted(want, instruments[0]) then Some(0)
    else
      var r := FindInstrument(instruments[1..], want);
      assert forall j :: 1 <= j < |instruments| ==> instruments[1..][j - 1] == instruments[j];
      if r.None? then None else Some(r.value + 1)
  }

  class AevoCollector {
    const base: Base.Collector
    const allowedPairs: set<string>
    const marketsTtl: real
    var cache: MarketsCache

    constructor(b: Base.Collector, optionPairs: Option<seq<string>>, allowedEnv: Option<string>, ttl: real)
      ensures base == b && marketsTtl == ttl && cache == MarketsCache(0, None)
      ensures allowedPairs == Base.ParseAllowedPairs(optionPairs.GetOr(b.cfg.pairs), allowedEnv)
    {
      base := b;
      allowedPairs := Base.ParseAllowedPairs(optionPairs.GetOr(b.cfg.pairs), allowedEnv);
      marketsTtl := ttl;
      cache := MarketsCache(0, None);
    }

    /** `_getMarkets()` at clock reading `now`: the cached list while fresh,
        otherwise the normalised fetched list, which replaces the cache. */
    method GetMarkets(now: nat, fetched: Result<MarketsJson, string>) returns (r: Result<seq<Instrument>, string>)
      modifies this
      ensures r == Served(old(cache), now, marketsTtl, fetched)
      ensures if r.Ok? && !CacheHit(old(cache), now, marketsTtl) then cache == MarketsCache(now, Some(r.value))
        else cache == old(cache)
    {
      if cache.markets.Some? && ((now - cache.ts) as real) < marketsTtl {
        return Ok(cache.markets.value);
      }
      if fetched.Err? {
        return Err(fetched.error);
      }
      var instruments := Instruments(RowsOf(fetched.value));
      cache := MarketsCache(now, Some(instruments));
      r := Ok(instruments);
    }

    /** `collectAndSend()`: `fetchFunding(name)` is the outcome of the retried
        `/funding` request for instrument `name`. */
    method CollectAndSend(markets: Result<MarketsJson, string>, fetchFunding: string -> Result<FundingJson, string>, now: nat,
                          clock: nat -> nat, deliver: nat -> nat -> Result<string, string>)
      returns (report: Base.Report)
      modifies this, base
      ensures report.CollectFailed? <==> Served(old(cache), now, marketsTtl, markets).Err?
      ensures !report.Sent? ==> base.lastSent == old(base.lastSent)
      ensures !report.CollectFailed? ==> (
        var targets := Targets(Served(old(cache), now, marketsTtl, markets).value, allowedPairs);
        var plan := Plan(targets, fetchFunding, now);
        && (report.NothingToSend? <==> targets == [])
        && (report.Sent? ==>
              report.sent == |plan| &&
              (report.outcomes, base.lastSent) == Base.Batch(base.dex, base.cfg, old(base.lastSent), plan, clock, deliver)))
      ensures var s := Served(old(cache), now, marketsTtl, markets);
        if s.Ok? && !CacheHit(old(cache), now, marketsTtl) then cache == MarketsCache(now, Some(s.value))
        else cache == old(cache)
    {
      var instruments := GetMarkets(now, markets);
      if instruments.Err? {
        return Base.CollectFailed(instruments.error);
      }
      var targets := Targets(instruments.value, allowedPairs);
      if |targets| == 0 {
        return Base.NothingToSend;
      }
      var plan := Plan(targets, fetchFunding, now);
      var sent, outcomes := base.SendBatch(plan, clock, deliver);
      report := Base.Sent(sent, outcomes);
    }

    /** `collectFundingData(pair)`: the first perpetual of base `pair`, whether
        or not the pair is allowed. */
    method CollectFundingData(pair: string, markets: Result<MarketsJson, string>,
                              fetchFunding: string -> Result<FundingJson, string>, now: nat)
      returns (r: Result<Base.FundingData, string>)
      modifies this
      ensures var s := Served(old(cache), now, marketsTtl, markets);
        s.Err? ==> r == Err(s.error)
      ensures var s := Served(old(cache), now, marketsTtl, markets);
        s.Ok? ==> (
          var found := FindInstrument(s.value, Upper(pair));
          && (found.None? ==> r.Err?)
          && (found.Some? ==>
                r == match fetchFunding(s.value[found.value].name)
                     case Ok(json) => Ok(FundingOf(json, now))
                     case Err(e) => Err(e)))
      ensures var s := Served(old(cache), now, marketsTtl, markets);
        if s.Ok? && !CacheHit(old(cache), now, marketsTtl) then cache == MarketsCache(now, Some(s.value))
        else cache == old(cache)
    {
      var instruments := GetMarkets(now, markets);
      if instruments.Err? {
        return Err(instruments.error);
      }
      var want := Upper(pair);
      var found := FindInstrument(instruments.value, want);
      if found.None? {
        return Err("[Aevo] Instrument introuvable pour " + want);
      }
      var f := fetchFunding(instruments.value[found.value].name);
      if f.Err? {
        return Err(f.error);
      }
      r := Ok(FundingOf(f.value, now));
    }
  }
}
