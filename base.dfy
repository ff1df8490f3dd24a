/**
 * The collector base class every exchange adapter extends: environment
 * parsing, the skip-if-unchanged gate, the last-sent memory keyed `dex:pair`,
 * the shape of the outbound ao message, and `sendToAOS`'s order of steps
 * (process id, skip check, message, dry run or delivery, remember on success).
 */
module Base {
  import opened Wrappers
  import opened Strings
  import opened JsValues
  import Retry

  // ------------------------------------------------------------------
  // Environment
  // ------------------------------------------------------------------

  /** The process environment: variable name to value. */
  type Environment = map<string, string>

  function Lookup(env: Environment, name: string): (r: Option<string>)
    ensures r.Some? <==> name in env
    ensures r.Some? ==> r.value == env[name]
  {
    if name in env then Some(env[name]) else None
  }

  /** `/^(1|true)$/i.test(process.env.X || "0")`. */
  function EnvFlag(v: Option<string>): (r: bool)
    ensures r <==> v.Some? && (v.value == "1" || IsTrueWord(v.value))
  {
    match v
    case None => false
    case Some(s) =>
      LowerIsTrue(s);
      s == "1" || Lower(s) == "true"
  }

  /** `true` in any mix of letter cases, letter by letter. */
  predicate IsTrueWord(s: string) {
    |s| == 4 && s[0] in "tT" && s[1] in "rR" && s[2] in "uU" && s[3] in "eE"
  }

  lemma LowerIsTrue(s: string)
    ensures Lower(s) == "true" <==> IsTrueWord(s)
  {
    if IsTrueWord(s) {
      assert Lower(s) == [LowerChar(s[0]), LowerChar(s[1]), LowerChar(s[2]), LowerChar(s[3])];
    }
    if Lower(s) == "true" {
      assert LowerChar(s[0]) == 't' && LowerChar(s[1]) == 'r' && LowerChar(s[2]) == 'u' && LowerChar(s[3]) == 'e';
    }
  }

  /** A comma token as the collectors keep it: non-empty, upper-case, no outer space. */
  predicate IsToken(t: string) {
    t != "" && IsUpper(t) && !IsSpace(t[0]) && !IsSpace(t[|t| - 1])
  }

  /** `pieces.map(s => s.trim().toUpperCase()).filter(Boolean)`. */
  function CleanTokens(pieces: seq<string>): seq<string>
    decreases |pieces|
  {
    if |pieces| == 0 then []
    else
      var t := Upper(Trim(pieces[0]));
      if t == "" then CleanTokens(pieces[1..]) else [t] + CleanTokens(pieces[1..])
  }

  /** `t` is the trimmed, upper-cased form of one of the pieces. */
  ghost predicate CleanedFrom(pieces: seq<string>, t: string) {
    exists i :: 0 <= i < |pieces| && t == Upper(Trim(pieces[i]))
  }

  /** No more tokens than pieces; each one a token cleaned from some piece. */
  lemma {:induction false} CleanTokensProperties(pieces: seq<string>)
    ensures |CleanTokens(pieces)| <= |pieces|
    ensures forall k :: 0 <= k < |CleanTokens(pieces)| ==>
      IsToken(CleanTokens(pieces)[k]) && CleanedFrom(pieces, CleanTokens(pieces)[k])
    decreases |pieces|
  {
    if |pieces| > 0 {
      var rest := CleanTokens(pieces[1..]);
      CleanTokensProperties(pieces[1..]);
      UpperTrimIsToken(pieces[0]);
      forall k | 0 <= k < |rest|
        ensures CleanedFrom(pieces, rest[k])
      {
        var i :| 0 <= i < |pieces[1..]| && rest[k] == Upper(Trim(pieces[1..][i]));
        assert pieces[1..][i] == pieces[i + 1];
      }
      var r := CleanTokens(pieces);
      if Upper(Trim(pieces[0])) != "" {
        forall k | 0 <= k < |r|
          ensures IsToken(r[k]) && CleanedFrom(pieces, r[k])
        {
          if k > 0 {
            assert r[k] == rest[k - 1];
          }
        }
      }
    }
  }

  lemma UpperTrimIsToken(s: string)
    ensures Upper(Trim(s)) != "" ==> IsToken(Upper(Trim(s)))
  {
    TrimHasNoOuterSpace(s);
    UpperIsUpper(Trim(s));
  }

  lemma UpperOfUpper(t: string)
    requires IsUpper(t)
    ensures Upper(t) == t
  {
  }

  /** `s.split(",").map(s => s.trim().toUpperCase()).filter(Boolean)`. */
  function CsvTokens(s: string): (r: seq<string>)
    ensures forall k :: 0 <= k < |r| ==> IsToken(r[k]) && ',' !in r[k]
  {
    var pieces := Split(s, ',');
    var r := CleanTokens(pieces);
    CleanTokensProperties(pieces);
    assert forall k :: 0 <= k < |r| ==> ',' !in r[k] by {
      forall k | 0 <= k < |r|
        ensures ',' !in r[k]
      {
        assert CleanedFrom(pieces, r[k]);
        var i :| 0 <= i < |pieces| && r[k] == Upper(Trim(pieces[i]));
        SplitPiecesAvoidSep(s, ',');
        NoCharInTrim(pieces[i], ',');
        UpperKeepsChar(Trim(pieces[i]), ',');
      }
    }
    r
  }

  lemma NoCharInTrim(s: string, c: char)
    requires c !in s
    ensures c !in Trim(s)
  {
    var t := TrimStart(s);
    assert t == s[|s| - |t|..];
    assert Trim(s) == t[..|Trim(s)|];
  }

  lemma {:induction false} CleanTokensKeepsTokens(tokens: seq<string>)
    requires forall k :: 0 <= k < |tokens| ==> IsToken(tokens[k])
    ensures CleanTokens(tokens) == tokens
    decreases |tokens|
  {
    if |tokens| > 0 {
      UpperOfUpper(tokens[0]);
      CleanTokensKeepsTokens(tokens[1..]);
      assert tokens == [tokens[0]] + tokens[1..];
    }
  }

  /** Writing a list of tokens as a comma list and parsing it back gives the list. */
  lemma CsvRoundTrip(tokens: seq<string>)
    requires |tokens| >= 1
    requires forall k :: 0 <= k < |tokens| ==> IsToken(tokens[k]) && ',' !in tokens[k]
    ensures CsvTokens(Join(tokens, ',')) == tokens
  {
    SplitJoin(tokens, ',');
    CleanTokensKeepsTokens(tokens);
  }

  /** `parseAllowedPairs(defaults, envVar)`: the upper-cased defaults when the
      variable is unset or empty, otherwise its comma tokens. */
  function ParseAllowedPairs(defaults: seq<string>, fromEnv: Option<string>): (r: set<string>)
    ensures fromEnv.None? || fromEnv == Some("") ==> r == set d | d in defaults :: Upper(d)
    ensures fromEnv.Some? && fromEnv.value != "" ==> forall t :: t in r <==> t in CsvTokens(fromEnv.value)
  {
    if fromEnv.None? || fromEnv.value == "" then set d | d in defaults :: Upper(d)
    else set t | t in CsvTokens(fromEnv.value)
  }

  /** An allowed-pairs variable written as a comma list of tokens yields exactly those tokens. */
  lemma AllowedPairsFromList(defaults: seq<string>, tokens: seq<string>)
    requires |tokens| >= 1
    requires forall k :: 0 <= k < |tokens| ==> IsToken(tokens[k]) && ',' !in tokens[k]
    ensures ParseAllowedPairs(defaults, Some(Join(tokens, ','))) == set t | t in tokens
  {
    CsvRoundTrip(tokens);
  }

  const DefaultPairs: seq<string> := ["BTC", "ETH", "SOL", "XRP", "BNB"]

  /** A non-empty word of capital letters is a clean token without a comma. */
  lemma CapitalsAreToken(t: string)
    requires t != "" && forall i :: 0 <= i < |t| ==> IsUpperAscii(t[i])
    ensures IsToken(t) && ',' !in t
  {
    assert !IsSpace(t[0]) && !IsSpace(t[|t| - 1]);
  }

  lemma DefaultPairsAreTokens()
    ensures forall k :: 0 <= k < |DefaultPairs| ==> IsToken(DefaultPairs[k]) && ',' !in DefaultPairs[k]
  {
    forall k | 0 <= k < |DefaultPairs| ensures IsToken(DefaultPairs[k]) && ',' !in DefaultPairs[k] {
      var t := DefaultPairs[k];
      assert |t| == 3 && IsUpperAscii(t[0]) && IsUpperAscii(t[1]) && IsUpperAscii(t[2]);
      CapitalsAreToken(t);
    }
  }

  /** `getPairs()`: the trimmed `PAIRS` variable's tokens, or the default five
      when it is unset or blank. */
  function GetPairs(fromEnv: Option<string>): (r: seq<string>)
    ensures fromEnv.None? || Trim(fromEnv.value) == "" ==> r == DefaultPairs
    ensures fromEnv.Some? && Trim(fromEnv.value) != "" ==> r == CsvTokens(Trim(fromEnv.value))
    ensures forall k :: 0 <= k < |r| ==> IsToken(r[k]) && ',' !in r[k]
  {
    if fromEnv.None? || Trim(fromEnv.value) == "" then
      DefaultPairsAreTokens();
      DefaultPairs
    else CsvTokens(Trim(fromEnv.value))
  }

  function ProcessVariable(pair: string): string {
    "ANALYSIS_" + pair + "_PROCESS"
  }

  /** `getProcessIdMap(pairs)`: each pair's trimmed `ANALYSIS_<PAIR>_PROCESS`, or "". */
  function ProcessIdMap(pairs: seq<string>, env: Environment): (r: map<string, string>)
    ensures forall p :: p in r <==> p in pairs
    ensures forall p :: p in r ==> r[p] == (if ProcessVariable(p) in env then Trim(env[ProcessVariable(p)]) else "")
  {
    map p | p in pairs :: if ProcessVariable(p) in env then Trim(env[ProcessVariable(p)]) else ""
  }

  /** The numeric thresholds of the skip gate, each `Number(env || 0)`;
      None stands for NaN. */
  datatype Tolerances = Tolerances(absEps: Option<real>, relEps: Option<real>, nextEps: Option<real>, minInterval: Option<real>)

  datatype SkipRule = SkipRule(skipUnchanged: bool, tol: Tolerances)

  /** The collector's settings, fixed at construction. */
  datatype Settings = Settings(
    pairs: seq<string>,
    processIds: map<string, string>,
    dryRun: bool,
    schema: string,
    tagSeconds: bool,
    skip: SkipRule,
    delivery: Retry.Policy)

  /** The constructor's reading of the environment. The numeric settings
      (the skip tolerances and `AOS_RETRIES` / `AOS_RETRY_BASE_MS`) are given
      already converted. */
  function Configure(env: Environment, tol: Tolerances, retries: int, baseMs: real): (s: Settings)
    ensures s.pairs == GetPairs(Lookup(env, "PAIRS"))
    ensures s.processIds == ProcessIdMap(s.pairs, env)
    ensures forall p :: p in s.processIds <==> p in s.pairs
    ensures forall p :: p in s.processIds ==>
      s.processIds[p] == (if ProcessVariable(p) in env then Trim(env[ProcessVariable(p)]) else "")
    ensures s.dryRun == EnvFlag(Lookup(env, "DRY_RUN"))
    ensures s.tagSeconds == EnvFlag(Lookup(env, "TAG_SECONDS"))
    ensures s.skip.skipUnchanged == EnvFlag(Lookup(env, "SKIP_UNCHANGED"))
    ensures s.skip.tol == tol
    ensures s.schema != ""
    ensures "SCHEMA" !in env || Trim(env["SCHEMA"]) == "" ==> s.schema == "funding.v1"
    ensures "SCHEMA" in env && Trim(env["SCHEMA"]) != "" ==> s.schema == Trim(env["SCHEMA"])
    ensures s.delivery == Retry.DefaultPolicy(retries, baseMs)
  {
    var pairs := GetPairs(Lookup(env, "PAIRS"));
    Settings(
      pairs,
      ProcessIdMap(pairs, env),
      EnvFlag(Lookup(env, "DRY_RUN")),
      if "SCHEMA" in env && Trim(env["SCHEMA"]) != "" then Trim(env["SCHEMA"]) else "funding.v1",
      EnvFlag(Lookup(env, "TAG_SECONDS")),
      SkipRule(EnvFlag(Lookup(env, "SKIP_UNCHANGED")), tol),
      Retry.DefaultPolicy(retries, baseMs))
  }

  /** `this.processIds[pair]`, with "" for a pair that has no entry. */
  function ProcessIdFor(s: Settings, pair: string): string {
    if pair in s.processIds then s.processIds[pair] else ""
  }

  // ------------------------------------------------------------------
  // Skip gate
  // ------------------------------------------------------------------

  function Abs(x: real): real { if x < 0.0 then -x else x }
  function Max(a: real, b: real): real { if a < b then b else a }

  /** The tolerance two finite rates are compared with: the larger of the
      absolute tolerance and the relative tolerance scaled by the larger
      magnitude, a NaN tolerance counting as 0. */
  function Tolerance(x: real, y: real, tol: Tolerances): real {
    Max(tol.absEps.GetOr(0.0), Max(Abs(x), Abs(y)) * tol.relEps.GetOr(0.0))
  }

  /** `almostEqualFunding(a, b)`: both finite and within `Tolerance`. */
  function AlmostEqualFunding(a: Option<real>, b: Option<real>, tol: Tolerances): (r: bool)
    ensures r ==> a.Some? && b.Some?
    ensures a.Some? && b.Some? ==> (r <==> Abs(a.value - b.value) <= Tolerance(a.value, b.value, tol))
  {
    a.Some? && b.Some? && Abs(a.value - b.value) <= Tolerance(a.value, b.value, tol)
  }

  lemma AlmostEqualSymmetric(a: Option<real>, b: Option<real>, tol: Tolerances)
    ensures AlmostEqualFunding(a, b, tol) == AlmostEqualFunding(b, a, tol)
  {
    if a.Some? && b.Some? {
      var x, y := a.value, b.value;
      assert Max(Abs(x), Abs(y)) == Max(Abs(y), Abs(x));
      assert Tolerance(x, y, tol) == Tolerance(y, x, tol);
      assert Abs(x - y) == Abs(y - x);
    }
  }

  /** With no tolerance configured, "almost equal" is equality of finite rates. */
  lemma AlmostEqualWithoutTolerance(x: real, y: real, tol: Tolerances)
    requires tol.absEps.None? || tol.absEps == Some(0.0)
    requires tol.relEps.None? || tol.relEps == Some(0.0)
    ensures AlmostEqualFunding(Some(x), Some(y), tol) <==> x == y
  {
  }

  /** A rate is almost equal to itself unless a negative tolerance is configured. */
  lemma AlmostEqualReflexive(x: real, tol: Tolerances)
    requires tol.absEps.None? || tol.absEps.value >= 0.0
    ensures AlmostEqualFunding(Some(x), Some(x), tol)
  {
  }

  /** The last-sent record: `{ts, funding_rate, next_funding}`. */
  datatype LastSent = LastSent(ts: nat, rate: real, next: real)

  /** `${dexName}:${pair}`. */
  function Key(dex: string, pair: string): string {
    dex + ":" + pair
  }

  /** The key names its exchange and pair: the exchange is the text before the first ':'. */
  lemma KeyInjective(d1: string, p1: string, d2: string, p2: string)
    requires ':' !in d1 && ':' !in d2
    requires Key(d1, p1) == Key(d2, p2)
    ensures d1 == d2 && p1 == p2
  {
    SplitAfterPiece(d1, p1, ':');
    SplitAfterPiece(d2, p2, ':');
    var s1 := [d1] + Split(p1, ':');
    var s2 := [d2] + Split(p2, ':');
    assert s1 == s2;
    assert s1[0] == d1 && s2[0] == d2;
    assert s1[1..] == Split(p1, ':') && s2[1..] == Split(p2, ':');
    JoinSplit(p1, ':');
    JoinSplit(p2, ':');
  }

  /** Inside `MIN_SEND_INTERVAL_MS` of the last send (a positive interval only). */
  predicate WithinInterval(tol: Tolerances, last: LastSent, nowMs: nat) {
    tol.minInterval.Some? && tol.minInterval.value > 0.0 && ((nowMs - last.ts) as real) < tol.minInterval.value
  }

  /** `|next - last.next_funding| <= NEXT_FUNDING_EPS_MS` (never true for a NaN tolerance). */
  predicate SameNext(tol: Tolerances, last: LastSent, next: real) {
    tol.nextEps.Some? && Abs(next - last.next) <= tol.nextEps.value
  }

  /** `_shouldSkip(pair, data, nowMs)`. */
  function ShouldSkip(rule: SkipRule, lastSent: map<string, LastSent>, key: string, data: FundingData, nowMs: nat): (r: bool)
    ensures !rule.skipUnchanged ==> !r
    ensures key !in lastSent ==> !r
    ensures rule.skipUnchanged && key in lastSent && WithinInterval(rule.tol, lastSent[key], nowMs) ==> r
    ensures rule.skipUnchanged && key in lastSent && !WithinInterval(rule.tol, lastSent[key], nowMs) ==>
      (r <==> AlmostEqualFunding(Some(data.rate), Some(lastSent[key].rate), rule.tol) && SameNext(rule.tol, lastSent[key], data.next))
  {
    if !rule.skipUnchanged || key !in lastSent then false
    else
      var last := lastSent[key];
      if WithinInterval(rule.tol, last, nowMs) then true
      else AlmostEqualFunding(Some(data.rate), Some(last.rate), rule.tol) && SameNext(rule.tol, last, data.next)
  }

  /** Once data has been remembered, sending the same data again is skipped
      whenever skipping is on and the tolerances are not negative. */
  lemma RepeatIsSkipped(rule: SkipRule, m: map<string, LastSent>, key: string, data: FundingData, sentAt: nat, nowMs: nat)
    requires rule.skipUnchanged
    requires rule.tol.absEps.None? || rule.tol.absEps.value >= 0.0
    requires rule.tol.nextEps.Some? && rule.tol.nextEps.value >= 0.0
    ensures ShouldSkip(rule, m[key := LastSent(sentAt, data.rate, data.next)], key, data, nowMs)
  {
    AlmostEqualReflexive(data.rate, rule.tol);
  }

  // ------------------------------------------------------------------
  // The outbound message
  // ------------------------------------------------------------------

  datatype Liquidity = NoLiquidity | Liquidity(long: real, short: real)
  datatype Fees = NoFees | Fees(maker: real, taker: real)

  /** The data handed to `sendToAOS`: finite rate and next-funding time (ms). */
  datatype FundingData = FundingData(rate: real, next: real, liquidity: Liquidity, fees: Fees)

  /** A tag value: a string, or `String(x)` of a number. */
  datatype TagValue = Str(s: string) | NumberText(x: real)
  datatype Tag = Tag(name: string, value: TagValue)

  datatype Body = Body(
    dex: string, pair: string, fundingRate: real, nextFunding: real, nextFundingSec: int,
    liquidity: Liquidity, fees: Fees, timestamp: nat, timestampSec: nat, schema: string)

  datatype Message = Message(process: string, tags: seq<Tag>, body: Body)

  const TagNames: seq<string> := ["Action", "Source", "Pair", "Rate", "NextFunding", "Timestamp", "Schema", "Client-Message-Id"]

  function ClientMessageId(dex: string, pair: string, nowMs: nat): string {
    dex + ":" + pair + ":" + NatToDecimal(nowMs)
  }

  /** The tags and body `sendToAOS` builds for one send. */
  function BuildMessage(dex: string, s: Settings, processId: string, pair: string, data: FundingData, nowMs: nat): (m: Message)
    ensures |m.tags| == |TagNames|
    ensures forall k :: 0 <= k < |m.tags| ==> m.tags[k].name == TagNames[k]
    ensures m.process == processId
  {
    var nowSec := nowMs / 1000;
    var tags := [
      Tag("Action", Str("Funding-Update")),
      Tag("Source", Str(dex)),
      Tag("Pair", Str(pair)),
      Tag("Rate", NumberText(data.rate)),
      Tag("NextFunding", NumberText(data.next)),
      Tag("Timestamp", Str(NatToDecimal(if s.tagSeconds then nowSec else nowMs))),
      Tag("Schema", Str(s.schema)),
      Tag("Client-Message-Id", Str(ClientMessageId(dex, pair, nowMs)))
    ];
    var body := Body(dex, pair, data.rate, data.next, (data.next / 1000.0).Floor,
                     data.liquidity, data.fees, nowMs, nowSec, s.schema);
    Message(processId, tags, body)
  }

  /** The Client-Message-Id reads back as exchange, pair and send time. */
  lemma ClientMessageIdParses(dex: string, pair: string, nowMs: nat)
    requires ':' !in dex && ':' !in pair
    ensures |Split(ClientMessageId(dex, pair, nowMs), ':')| == 3
    ensures Split(ClientMessageId(dex, pair, nowMs), ':')[0] == dex
    ensures Split(ClientMessageId(dex, pair, nowMs), ':')[1] == pair
    ensures Split(ClientMessageId(dex, pair, nowMs), ':')[2] == NatToDecimal(nowMs)
    ensures DecimalToNat(Split(ClientMessageId(dex, pair, nowMs), ':')[2]) == nowMs
  {
    var digits := NatToDecimal(nowMs);
    assert ':' !in digits;
    DecimalRoundTrip(nowMs);
    SplitWithoutSep(digits, ':');
    SplitAfterPiece(pair, digits, ':');
    assert ClientMessageId(dex, pair, nowMs) == dex + [':'] + (pair + [':'] + digits);
    SplitAfterPiece(dex, pair + [':'] + digits, ':');
  }

  /** The message's times: the Timestamp tag is the send time in seconds iff
      `tagSeconds`, otherwise in milliseconds; the body's second fields are the
      floors of the millisecond ones. */
  lemma MessageTimes(dex: string, s: Settings, processId: string, pair: string, data: FundingData, nowMs: nat)
    ensures var m := BuildMessage(dex, s, processId, pair, data, nowMs);
      && m.tags[5].value.Str?
      && DecimalToNat(m.tags[5].value.s) == (if s.tagSeconds then nowMs / 1000 else nowMs)
      && (m.body.nextFundingSec as real) * 1000.0 <= data.next < (m.body.nextFundingSec as real + 1.0) * 1000.0
      && m.body.timestampSec * 1000 <= nowMs < (m.body.timestampSec + 1) * 1000
      && m.body.timestamp == nowMs
  {
    DecimalRoundTrip(if s.tagSeconds then nowMs / 1000 else nowMs);
  }

  // ------------------------------------------------------------------
  // sendToAOS
  // ------------------------------------------------------------------

  datatype SendOutcome =
    | NoProcessId
    | Skipped
    | DryRun(msg: Message)
    | Delivered(msg: Message, messageId: string)
    | DeliveryFailed(msg: Message, error: Option<string>)

  /** The outcomes after which `_remember` runs. */
  predicate Remembers(o: SendOutcome) {
    o.DryRun? || o.Delivered?
  }

  datatype Step = Step(outcome: SendOutcome, lastSent: map<string, LastSent>)

  /**
   * One `sendToAOS(pair, data)` at time `nowMs`, where `deliver(i)` is what the
   * i-th delivery attempt resolves to or throws. Nothing is thrown to the caller.
   */
  function Dispatch(dex: string, s: Settings, m: map<string, LastSent>, pair: string, data: FundingData,
                    nowMs: nat, deliver: nat -> Result<string, string>): (st: Step)
    ensures ProcessIdFor(s, pair) == "" <==> st.outcome.NoProcessId?
    ensures st.outcome.Skipped? <==> ProcessIdFor(s, pair) != "" && ShouldSkip(s.skip, m, Key(dex, pair), data, nowMs)
    ensures st.outcome.DryRun? <==> ProcessIdFor(s, pair) != "" && !ShouldSkip(s.skip, m, Key(dex, pair), data, nowMs) && s.dryRun
    ensures st.outcome.Delivered? <==>
      ProcessIdFor(s, pair) != "" && !ShouldSkip(s.skip, m, Key(dex, pair), data, nowMs) && !s.dryRun
      && Retry.Spec(deliver, s.delivery).outcome.Succeeded?
    ensures st.outcome.Delivered? ==> st.outcome.messageId == Retry.Spec(deliver, s.delivery).outcome.value
    ensures st.outcome.DeliveryFailed? ==> st.outcome.error == Retry.Spec(deliver, s.delivery).outcome.lastError
    ensures (st.outcome.DryRun? || st.outcome.Delivered? || st.outcome.DeliveryFailed?) ==>
      st.outcome.msg == BuildMessage(dex, s, ProcessIdFor(s, pair), pair, data, nowMs)
    ensures st.lastSent == if Remembers(st.outcome) then m[Key(dex, pair) := LastSent(nowMs, data.rate, data.next)] else m
  {
    var pid := ProcessIdFor(s, pair);
    if pid == "" then Step(NoProcessId, m)
    else if ShouldSkip(s.skip, m, Key(dex, pair), data, nowMs) then Step(Skipped, m)
    else
      var msg := BuildMessage(dex, s, pid, pair, data, nowMs);
      if s.dryRun then Step(DryRun(msg), m[Key(dex, pair) := LastSent(nowMs, data.rate, data.next)])
      else
        match Retry.Spec(deliver, s.delivery).outcome
        case Succeeded(id) => Step(Delivered(msg, id), m[Key(dex, pair) := LastSent(nowMs, data.rate, data.next)])
        case Exhausted(e) => Step(DeliveryFailed(msg, e), m)
  }

  /** One item of a send loop: the pair and the data for it. */
  datatype Item = Item(pair: string, data: FundingData)

  /**
   * The adapters' send loop: `sendToAOS` for each item in order, item `i` at
   * clock reading `clock(i)` with delivery attempts `deliver(i)`.
   */
  function Batch(dex: string, s: Settings, m: map<string, LastSent>, items: seq<Item>,
                 clock: nat -> nat, deliver: nat -> nat -> Result<string, string>): (st: (seq<SendOutcome>, map<string, LastSent>))
    ensures |st.0| == |items|
    decreases |items|
  {
    if |items| == 0 then ([], m)
    else
      var n := |items| - 1;
      var pre := Batch(dex, s, m, items[..n], clock, deliver);
      var step := Dispatch(dex, s, pre.1, items[n].pair, items[n].data, clock(n), deliver(n));
      (pre.0 + [step.outcome], step.lastSent)
  }

  /** Some item of the loop is for `key`. */
  ghost predicate Touches(dex: string, items: seq<Item>, key: string) {
    exists i :: 0 <= i < |items| && Key(dex, items[i].pair) == key
  }

  /** A send loop changes only the entries of the pairs it sends. */
  lemma {:induction false} BatchTouchesOnlyItsKeys(dex: string, s: Settings, m: map<string, LastSent>, items: seq<Item>,
                                                    clock: nat -> nat, deliver: nat -> nat -> Result<string, string>, key: string)
    requires !Touches(dex, items, key)
    ensures key in Batch(dex, s, m, items, clock, deliver).1 <==> key in m
    ensures key in m ==> Batch(dex, s, m, items, clock, deliver).1[key] == m[key]
    decreases |items|
  {
    if |items| > 0 {
      var n := |items| - 1;
      forall i | 0 <= i < n
        ensures Key(dex, items[..n][i].pair) != key
      {
        assert items[..n][i] == items[i];
      }
      BatchTouchesOnlyItsKeys(dex, s, m, items[..n], clock, deliver, key);
    }
  }

  /** A send loop remembers exactly the items whose send was a dry run or a delivery:
      the last such item for a key decides its entry. */
  lemma {:induction false} BatchRemembersLastSend(dex: string, s: Settings, m: map<string, LastSent>, items: seq<Item>,
                                                   clock: nat -> nat, deliver: nat -> nat -> Result<string, string>, i: nat)
    requires i < |items|
    requires Remembers(Batch(dex, s, m, items, clock, deliver).0[i])
    requires forall j :: i < j < |items| ==> Key(dex, items[j].pair) != Key(dex, items[i].pair)
    ensures Key(dex, items[i].pair) in Batch(dex, s, m, items, clock, deliver).1
    ensures Batch(dex, s, m, items, clock, deliver).1[Key(dex, items[i].pair)] == LastSent(clock(i), items[i].data.rate, items[i].data.next)
    decreases |items|
  {
    var n := |items| - 1;
    var pre := Batch(dex, s, m, items[..n], clock, deliver);
    if i < n {
      assert Batch(dex, s, m, items, clock, deliver).0[i] == pre.0[i];
      assert items[..n][i] == items[i];
      forall j | i < j < |items[..n]|
        ensures Key(dex, items[..n][j].pair) != Key(dex, items[..n][i].pair)
      {
        assert items[..n][j] == items[j];
      }
      BatchRemembersLastSend(dex, s, m, items[..n], clock, deliver, i);
    }
  }

  /** How one adapter `collectAndSend()` cycle ended: the collection step threw,
      there was nothing to send, or the send loop ran. */
  datatype Report = CollectFailed(error: string) | NothingToSend | Sent(sent: nat, outcomes: seq<SendOutcome>)

  // ------------------------------------------------------------------
  // The collector object
  // ------------------------------------------------------------------

  /** What an adapter's `collectFundingData(pair)` gives before normalisation. */
  datatype RawFunding = RawFunding(rate: JsValue, next: JsValue, liquidity: Liquidity, fees: Fees)

  /** The normalisation at the top of `collectAndSend`: a non-numeric rate
      becomes 0 and a non-numeric next-funding time becomes the clock reading. */
  function Normalise(raw: RawFunding, nowMs: nat): (d: FundingData)
    ensures NumberOf(raw.rate).None? ==> d.rate == 0.0
    ensures NumberOf(raw.rate).Some? ==> d.rate == NumberOf(raw.rate).value
    ensures NumberOf(raw.next).None? ==> d.next == nowMs as real
    ensures NumberOf(raw.next).Some? ==> d.next == NumberOf(raw.next).value
    ensures d.liquidity == raw.liquidity && d.fees == raw.fees
  {
    FundingData(ToNum(raw.rate, 0.0), ToNum(raw.next, nowMs as real), raw.liquidity, raw.fees)
  }

  /** One pair of the base `collectAndSend()`: collect it with `fetch`; on
      success normalise at `normMs` and `sendToAOS` at `sendMs`. A failed
      collection is caught: no outcome, and the memory is left as it was. */
  function CollectOne(dex: string, s: Settings, m: map<string, LastSent>, pair: string,
                      fetch: string -> Result<RawFunding, string>, normMs: nat, sendMs: nat,
                      deliver: nat -> Result<string, string>): (r: (Option<SendOutcome>, map<string, LastSent>))
    ensures r.0.None? <==> fetch(pair).Err?
    ensures fetch(pair).Err? ==> r.1 == m
    ensures fetch(pair).Ok? ==> Step(r.0.value, r.1) == Dispatch(dex, s, m, pair, Normalise(fetch(pair).value, normMs), sendMs, deliver)
  {
    match fetch(pair)
    case Err(_) => (None, m)
    case Ok(raw) =>
      var step := Dispatch(dex, s, m, pair, Normalise(raw, normMs), sendMs, deliver);
      (Some(step.outcome), step.lastSent)
  }

  /**
   * The base `collectAndSend()` loop over `pairs`: pair `i` is collected,
   * normalised at clock reading `clock(2i)` and sent at `clock(2i + 1)` with
   * delivery attempts `deliver(i)`.
   */
  function Collected(dex: string, s: Settings, m: map<string, LastSent>, pairs: seq<string>,
                     fetch: string -> Result<RawFunding, string>, clock: nat -> nat,
                     deliver: nat -> nat -> Result<string, string>): (st: (seq<Option<SendOutcome>>, map<string, LastSent>))
    ensures |st.0| == |pairs|
    decreases |pairs|
  {
    if |pairs| == 0 then ([], m)
    else
      var n := |pairs| - 1;
      var pre := Collected(dex, s, m, pairs[..n], fetch, clock, deliver);
      var one := CollectOne(dex, s, pre.1, pairs[n], fetch, clock(2 * n), clock(2 * n + 1), deliver(n));
      (pre.0 + [one.0], one.1)
  }

  lemma CollectedStep(dex: string, s: Settings, m: map<string, LastSent>, pairs: seq<string>,
                      fetch: string -> Result<RawFunding, string>, clock: nat -> nat,
                      deliver: nat -> nat -> Result<string, string>, i: nat)
    requires i < |pairs|
    ensures var pre := Collected(dex, s, m, pairs[..i], fetch, clock, deliver);
      var one := CollectOne(dex, s, pre.1, pairs[i], fetch, clock(2 * i), clock(2 * i + 1), deliver(i));
      Collected(dex, s, m, pairs[..i + 1], fetch, clock, deliver) == (pre.0 + [one.0], one.1)
  {
    assert pairs[..i + 1][..i] == pairs[..i];
    assert pairs[..i + 1][i] == pairs[i];
  }

  /** Pair `i`'s outcome is `CollectOne` against the memory the earlier pairs left. */
  lemma {:induction false} CollectedAt(dex: string, s: Settings, m: map<string, LastSent>, pairs: seq<string>,
                                       fetch: string -> Result<RawFunding, string>, clock: nat -> nat,
                                       deliver: nat -> nat -> Result<string, string>, i: nat)
    requires i < |pairs|
    ensures var before := Collected(dex, s, m, pairs[..i], fetch, clock, deliver).1;
      Collected(dex, s, m, pairs, fetch, clock, deliver).0[i] ==
        CollectOne(dex, s, before, pairs[i], fetch, clock(2 * i), clock(2 * i + 1), deliver(i)).0
    decreases |pairs|
  {
    var n := |pairs| - 1;
    CollectedLast(dex, s, m, pairs, fetch, clock, deliver);
    if i < n {
      assert pairs[..n][..i] == pairs[..i];
      assert pairs[..n][i] == pairs[i];
      CollectedAt(dex, s, m, pairs[..n], fetch, clock, deliver, i);
    }
  }

  lemma CollectedLast(dex: string, s: Settings, m: map<string, LastSent>, pairs: seq<string>,
                      fetch: string -> Result<RawFunding, string>, clock: nat -> nat,
                      deliver: nat -> nat -> Result<string, string>)
    requires |pairs| > 0
    ensures var n := |pairs| - 1;
      var pre := Collected(dex, s, m, pairs[..n], fetch, clock, deliver);
      Collected(dex, s, m, pairs, fetch, clock, deliver).0 ==
        pre.0 + [CollectOne(dex, s, pre.1, pairs[n], fetch, clock(2 * n), clock(2 * n + 1), deliver(n)).0]
  {
  }

  /** Pairs the loop never visits keep their memory entry. */
  lemma {:induction false} CollectedTouchesOnlyItsPairs(dex: string, s: Settings, m: map<string, LastSent>, pairs: seq<string>,
                                                        fetch: string -> Result<RawFunding, string>, clock: nat -> nat,
                                                        deliver: nat -> nat -> Result<string, string>, key: string)
    requires forall i :: 0 <= i < |pairs| ==> Key(dex, pairs[i]) != key
    ensures key in Collected(dex, s, m, pairs, fetch, clock, deliver).1 <==> key in m
    ensures key in m ==> Collected(dex, s, m, pairs, fetch, clock, deliver).1[key] == m[key]
    decreases |pairs|
  {
    if |pairs| > 0 {
      var n := |pairs| - 1;
      assert forall i :: 0 <= i < n ==> pairs[..n][i] == pairs[i];
      CollectedTouchesOnlyItsPairs(dex, s, m, pairs[..n], fetch, clock, deliver, key);
    }
  }

  /** What the loop promises per pair and for the pairs it never visits. */
  lemma CollectedProperties(dex: string, s: Settings, m: map<string, LastSent>, pairs: seq<string>,
                            fetch: string -> Result<RawFunding, string>, clock: nat -> nat,
                            deliver: nat -> nat -> Result<string, string>)
    ensures var st := Collected(dex, s, m, pairs, fetch, clock, deliver);
      forall i :: 0 <= i < |st.0| ==> (st.0[i].None? <==> fetch(pairs[i]).Err?)
    ensures var st := Collected(dex, s, m, pairs, fetch, clock, deliver);
      forall key :: (forall i :: 0 <= i < |pairs| ==> Key(dex, pairs[i]) != key) ==>
        (key in st.1 <==> key in m) && (key in st.1 ==> st.1[key] == m[key])
  {
    var st := Collected(dex, s, m, pairs, fetch, clock, deliver);
    forall i | 0 <= i < |st.0| ensures st.0[i].None? <==> fetch(pairs[i]).Err? {
      CollectedAt(dex, s, m, pairs, fetch, clock, deliver, i);
    }
    forall key | forall i :: 0 <= i < |pairs| ==> Key(dex, pairs[i]) != key
      ensures (key in st.1 <==> key in m) && (key in st.1 ==> st.1[key] == m[key])
    {
      CollectedTouchesOnlyItsPairs(dex, s, m, pairs, fetch, clock, deliver, key);
    }
  }

  class Collector {
    const dex: string
    const cfg: Settings
    var lastSent: map<string, LastSent>

    /** `new DataCollectorBase(dexName, walletPath)`; `restored` is what
        `loadLastState()` read (the empty map when persistence is off). */
    constructor(dexName: string, env: Environment, tol: Tolerances, retries: int, baseMs: real, restored: map<string, LastSent>)
      ensures dex == dexName && cfg == Configure(env, tol, retries, baseMs) && lastSent == restored
    {
      dex := dexName;
      cfg := Configure(env, tol, retries, baseMs);
      lastSent := restored;
    }

    /** `_remember(pair, data, nowMs)`: overwrite the entry for `dex:pair`, nothing else. */
    method Remember(pair: string, data: FundingData, nowMs: nat)
      modifies this
      ensures lastSent == old(lastSent)[Key(dex, pair) := LastSent(nowMs, data.rate, data.next)]
    {
      lastSent := lastSent[Key(dex, pair) := LastSent(nowMs, data.rate, data.next)];
    }

    /** `sendToAOS(pair, data)` at clock reading `nowMs`. */
    method SendToAOS(pair: string, data: FundingData, nowMs: nat, deliver: nat -> Result<string, string>)
      returns (out: SendOutcome)
      modifies this
      ensures Step(out, lastSent) == Dispatch(dex, cfg, old(lastSent), pair, data, nowMs, deliver)
    {
      var processId := if pair in cfg.processIds then cfg.processIds[pair] else "";
      if processId == "" {
        return NoProcessId;
      }
      if ShouldSkip(cfg.skip, lastSent, Key(dex, pair), data, nowMs) {
        return Skipped;
      }
      var msg := BuildMessage(dex, cfg, processId, pair, data, nowMs);
      if cfg.dryRun {
        Remember(pair, data, nowMs);
        return DryRun(msg);
      }
      var result, calls, waits := Retry.WithRetry(deliver, cfg.delivery);
      match result {
        case Succeeded(id) =>
          Remember(pair, data, nowMs);
          out := Delivered(msg, id);
        case Exhausted(e) =>
          out := DeliveryFailed(msg, e);
      }
    }

    /**
     * The adapters' `for (...) { try { await this.sendToAOS(...); sent += 1 } catch {} }`.
     * `sendToAOS` never throws, so every item counts as sent.
     */
    method SendBatch(items: seq<Item>, clock: nat -> nat, deliver: nat -> nat -> Result<string, string>)
      returns (sent: nat, outcomes: seq<SendOutcome>)
      modifies this
      ensures sent == |items|
      ensures (outcomes, lastSent) == Batch(dex, cfg, old(lastSent), items, clock, deliver)
    {
      sent := 0;
      outcomes := [];
      while sent < |items|
        invariant sent <= |items|
        invariant (outcomes, lastSent) == Batch(dex, cfg, old(lastSent), items[..sent], clock, deliver)
      {
        var o := SendToAOS(items[sent].pair, items[sent].data, clock(sent), deliver(sent));
        outcomes := outcomes + [o];
        assert items[..sent + 1][..sent] == items[..sent];
        sent := sent + 1;
      }
      assert items[..sent] == items;
    }

    /** The `try` block of the base `collectAndSend()` for one pair: collect,
        normalise at `normMs`, `sendToAOS` at `sendMs`; a thrown collection is
        caught and sends nothing. */
    method CollectPair(pair: string, fetch: string -> Result<RawFunding, string>, normMs: nat, sendMs: nat,
                       deliver: nat -> Result<string, string>)
      returns (o: Option<SendOutcome>)
      modifies this
      ensures (o, lastSent) == CollectOne(dex, cfg, old(lastSent), pair, fetch, normMs, sendMs, deliver)
    {
      match fetch(pair) {
        case Err(_) =>
          o := None;
        case Ok(raw) =>
          var data := Normalise(raw, normMs);
          var out := SendToAOS(pair, data, sendMs, deliver);
          o := Some(out);
      }
    }

    /**
     * The base `collectAndSend()`: for each configured pair in order, collect
     * (`fetch(pair)`), normalise at clock reading `clock(2i)` and send at
     * `clock(2i + 1)`; a failed collection skips the pair.
     */
    method CollectAndSend(fetch: string -> Result<RawFunding, string>, clock: nat -> nat,
                          deliver: nat -> nat -> Result<string, string>)
      returns (outcomes: seq<Option<SendOutcome>>)
      modifies this
      ensures (outcomes, lastSent) == Collected(dex, cfg, old(lastSent), cfg.pairs, fetch, clock, deliver)
      ensures |outcomes| == |cfg.pairs|
      ensures forall i :: 0 <= i < |outcomes| ==> (outcomes[i].None? <==> fetch(cfg.pairs[i]).Err?)
      ensures forall key :: (forall i :: 0 <= i < |cfg.pairs| ==> Key(dex, cfg.pairs[i]) != key) ==>
        (key in lastSent <==> key in old(lastSent)) && (key in lastSent ==> lastSent[key] == old(lastSent)[key])
    {
      outcomes := [];
      var i := 0;
      while i < |cfg.pairs|
        invariant i <= |cfg.pairs|
        invariant (outcomes, lastSent) == Collected(dex, cfg, old(lastSent), cfg.pairs[..i], fetch, clock, deliver)
      {
        CollectedStep(dex, cfg, old(lastSent), cfg.pairs, fetch, clock, deliver, i);
        var o := CollectPair(cfg.pairs[i], fetch, clock(2 * i), clock(2 * i + 1), deliver(i));
        outcomes := outcomes + [o];
        i := i + 1;
      }
      assert cfg.pairs[..i] == cfg.pairs;
      CollectedProperties(dex, cfg, old(lastSent), cfg.pairs, fetch, clock, deliver);
    }
  }
}
