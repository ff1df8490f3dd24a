# Funding-rate collectors, opportunity store and dashboard filter

This project models a funding-rate pipeline and proves properties of the model.

- **Collectors.** One per exchange: Hyperliquid, dYdX, Backpack, Orderly, Paradex, Aevo and Extended.
- **What a collector does.** It fetches market data and normalises it into a funding record: rate, next funding time, long/short liquidity and fees. Where an exchange lists several quotes for one base asset, it picks one market per base. It then hands each record to a shared base collector.
- **The base collector.** It decides whether the record differs enough from the last one sent for the same `dex:pair`. If it does, it builds the tagged outbound message and delivers it with bounded exponential-backoff retries. It remembers the record only when it was dry-run or delivered.
- **Runners.** They drive a collector in a loop with jittered sleeps, never run two cycles at once, and shut down once on a signal. Each cycle builds a fresh collector, so a market cache never serves a later cycle, and the `_lastSent` memory reaches the next cycle only through the state file the base collector loads and saves.
- **Downstream.** A Python store upserts arbitrage opportunities per pair. The dashboard filters them by pair, search text, DEXs and risk, and sorts them by net APR.

## Module layout

- `wrappers.dfy` has `Option` and `Result`.
- `jsvalues.dfy` models a JSON field as the collectors see it: absent, `null`, a number, a string, or another value. It covers `Number(x)` gated by `Number.isFinite`, the `toNum(x, fallback)` helper and the `??` operator.
- `jsmap.dfy` is a JavaScript `Map`: keys listed in insertion order, and `set` on a present key keeps its position.
- `strings.dfy` holds ASCII `toUpperCase`/`toLowerCase`, `split`, `trim` (with ECMAScript's white-space and line-terminator set), `includes`/`indexOf` and decimal rendering of an integer.
- `retry.dfy` is `withRetry`. The fetched or sent value is an oracle `attempt(i)`, and the sleeps are recorded as a list of delays.
- `timestamps.dfy` is the "seconds below 1e12 become milliseconds" rule, in its two variants.
- `winners.dfy` is the grouped winner loop shared by Backpack, Orderly and Paradex (`_selectWinners`, `selectBestMarkets`). Per base, the larger quote score wins, then (optionally) the larger open interest, then the first candidate seen.
- `base.dfy` is `data-collector-base.js`: configuration from the environment, `almostEqualFunding`, `_shouldSkip`, `_remember`, `sendToAOS` and the shared per-pair send loop. The class `Base.Collector` holds the `_lastSent` map.
- There is one file per adapter. Each is a class holding its cache field and a `Base.Collector`:
  - its cache method is proved against a `Served`/table function;
  - its `CollectAndSend` is proved equal to the shared send loop run over a `Plan` function;
  - its `CollectFundingData` is proved against a lookup function.
- `runner.dfy` models the five `run-*.js` scripts as one `Scheduler` class with the flags `stopped`, `isRunning` and `inFlight` (`inFlight` stands for the pending cycle promise). It also has the two `nextDelay` rules.
- `manager.dfy` is `runner/manager.py`: the opportunity table as a class whose `HandleOpportunity` loop is proved against a pure upsert function.
- `dashboard.dfy` is `filterOpportunities` and the top row of `renderTop`, with the DOM reads as parameters.

## How the environment is modelled

- **Time and randomness.** Clock readings (`Date.now()`, Python's `time()`) and `Math.random()` draws are parameters. A send loop takes a clock `clock(i)`, read before item `i`. A fetch is given as its outcome after `withRetry`, a value or an error.
- **Delivery.** It is an oracle `deliver(i)(attempt)`.
- **Numbers.** JS numbers are `real`, and `Number.isFinite` is the `Option` in `NumberOf`. Timestamps from upstream are `real`, so second and millisecond values are exact. Clock readings are `nat`.

## Behaviour worth noting

Some of what the code does is easy to miss, and the model keeps it:

- **The 1 s floor.** The Hyperliquid, dYdX, Backpack and Aevo runners return the base interval unchanged when the jitter is not positive; the 1 s floor applies only with jitter. Only the Orderly runner always floors, and it jitters whenever the jitter is non-zero.
- **The seconds-to-milliseconds rule.** dYdX multiplies every number below 1e12 by 1000, zero and negatives included. Backpack and Extended do so only for values in (0, 1e12).
- **Aevo names without a separator.** `baseFromInstrumentName` keeps only letters, so `1INCHPERP` becomes `INCH`. Its `/PERP.*$/` has no flags, and `.` does not match a line terminator, so a `PERP` followed later by a line break is not cut: `BTCPERP` followed by a line feed becomes `BTCP`. For the same reason the text left after the cut may still contain `PERP`.
- **dYdX rate fallback.** A present but non-numeric `nextFundingRate` gives 0. It does not fall through to `fundingRate`.
- **Extended dedup.** Extended sends every allowed market, with no one-per-base dedup.
- **dYdX `markets: null`.** `typeof null` is `'object'`, so a null `markets` passes the shape check and is cached as no data. The cycle then fails, and `collectFundingData` throws.

## Model

| member | source | states |
|---|---|---|
| JsValues.NumberOf | collectors/data-collector-base.js:47-50 | `Number(x)` when finite: absent is no number, `null` is 0, a JSON number is itself |
| JsValues.ToNum | collectors/data-collector-base.js:47-50 | `toNum` gives the finite `Number(x)` when there is one, else the fallback |
| JsValues.Coalesce | collectors/data-collector-dydx.js:66 | `a ?? b` is `a` unless `a` is null or undefined, else `b` |
| JsValues.CoalesceStopsAtPresentValue | collectors/data-collector-extended.js:86-88 | a present but non-numeric first field yields the fallback; the chain does not fall through |
| JsValues.NullIsZero | collectors/data-collector-base.js:47-50 | `toNum(null)` is 0 while `toNum(undefined)` is the fallback |
| JsMaps.Set | collectors/data-collector-backpack.js:117 | `Map.set` updates the value; a new key is appended to the iteration order, an existing one keeps its place |
| JsMaps.SetValid | collectors/data-collector-backpack.js:117 | `Map.set` keeps the key list duplicate-free and equal to the stored keys |
| Strings.SplitJoin | collectors/data-collector-base.js:19 | splitting the join of separator-free pieces gives the pieces back |
| Strings.JoinSplit | collectors/data-collector-base.js:19 | joining the pieces of a split with its separator gives the string back |
| Strings.TrimHasNoOuterSpace | collectors/data-collector-base.js:20 | what `trim()` keeps neither starts nor ends with white space (ECMAScript's WhiteSpace and LineTerminator characters: NBSP, U+FEFF and the Unicode space separators included) |
| Strings.TrimStripsOnlySpace | collectors/data-collector-base.js:20 | `trim()` keeps a contiguous middle slice of the string, and everything it cuts off before and after is white space |
| Strings.UpperAppend | collectors/data-collector-aevo.js:35 | upper-casing a concatenation upper-cases each part on its own |
| Strings.DecimalRoundTrip | collectors/data-collector-base.js:205 | the decimal rendering of a non-negative integer parses back to it |
| Strings.NatToDecimalInjective | collectors/data-collector-base.js:205 | distinct integers render to distinct decimal strings |
| Retry.Spec | collectors/data-collector-base.js:53-75 | at most `retries + 1` calls; every call but the last fails; a success is the last call's value; exhaustion rethrows the last call's error (none when no call was made); wait `j` is `baseMs * factor^j`, and no wait follows the final call |
| Retry.WithRetry | collectors/data-collector-base.js:62-74 | the loop's outcome, call count and waits are exactly `Retry.Spec` |
| Retry.FirstSuccessFrom | collectors/data-collector-base.js:62-74 | the first successful attempt in a range, with every earlier attempt failing, or none when all fail |
| Retry.Waits | collectors/data-collector-base.js:68-71 | the delay list after `k` failures has `k` entries, entry `j` being `baseMs * factor^j` |
| Base.Lookup | collectors/data-collector-base.js:78 | reading `process.env[name]` is defined exactly when the variable is set, and gives its value |
| Base.EnvFlag | collectors/data-collector-base.js:78 | the flag is on exactly when the variable is set to `1` or to `true` in any mix of letter cases (each of its four letters in either case); unset is off |
| Base.LowerIsTrue | collectors/data-collector-base.js:78 | lower-casing gives `true` exactly for the four-letter words `t`, `r`, `u`, `e` in either case |
| Base.CleanTokensProperties | collectors/data-collector-base.js:14-23 | the cleaned tokens are non-empty, trimmed and upper-cased, each coming from an input piece, and never more than the pieces |
| Base.UpperTrimIsToken | collectors/data-collector-base.js:20 | a non-empty upper-cased trimmed string is a clean token |
| Base.CsvTokens | collectors/data-collector-base.js:14-23 | every comma token is clean and comma-free |
| Base.CsvRoundTrip | collectors/data-collector-base.js:14-23 | parsing the comma join of clean tokens gives them back in order |
| Base.ParseAllowedPairs | collectors/data-collector-base.js:14-23 | unset or empty variable gives the upper-cased defaults; otherwise exactly the trimmed, upper-cased, non-empty comma tokens |
| Base.AllowedPairsFromList | collectors/data-collector-base.js:14-23 | `ALLOWED_PAIRS` written as a comma list of clean tokens allows exactly those pairs |
| Base.GetPairs | collectors/data-collector-base.js:25-29 | unset or blank `PAIRS` gives BTC, ETH, SOL, XRP, BNB; otherwise the comma tokens of the trimmed value |
| Base.DefaultPairsAreTokens | collectors/data-collector-base.js:27 | the five default pairs are clean tokens without a comma, like the ones parsed from `PAIRS` |
| Base.ProcessIdMap | collectors/data-collector-base.js:31-45 | one entry per pair, holding the trimmed `ANALYSIS_<PAIR>_PROCESS` value or `""` |
| Base.Configure | collectors/data-collector-base.js:121-142 | the constructor's settings: pairs; the process-id map, each pair's trimmed `ANALYSIS_<PAIR>_PROCESS` or ""; the DRY_RUN, TAG_SECONDS and SKIP_UNCHANGED flags; the given skip tolerances; the trimmed SCHEMA when non-blank, else `funding.v1`; the retry policy with factor 2 |
| Base.AlmostEqualFunding | collectors/data-collector-base.js:84-91 | two rates are equal only when both are numbers and differ by at most `max(absEps, relEps * max(abs a, abs b))` |
| Base.AlmostEqualSymmetric | collectors/data-collector-base.js:84-91 | the tolerance comparison does not depend on argument order |
| Base.AlmostEqualWithoutTolerance | collectors/data-collector-base.js:79-91 | with both tolerances unset or zero, rates are equal exactly when identical |
| Base.AlmostEqualReflexive | collectors/data-collector-base.js:84-91 | with a non-negative absolute tolerance, a rate equals itself |
| Base.KeyInjective | collectors/data-collector-base.js:165 | the `dex:pair` key determines dex and pair when the dex has no colon |
| Base.ShouldSkip | collectors/data-collector-base.js:163-179 | never skips with SKIP_UNCHANGED off or with no last send; skips inside the minimum interval; otherwise skips iff the rate is almost equal and next-funding is within its tolerance |
| Base.RepeatIsSkipped | collectors/data-collector-base.js:163-188 | right after remembering a record, resending the same record is skipped |
| Base.BuildMessage | collectors/data-collector-base.js:203-238 | exactly the eight tags in their fixed order, addressed to the pair's process |
| Base.ClientMessageIdParses | collectors/data-collector-base.js:205 | `Client-Message-Id` splits on `:` into dex, pair and the decimal `nowMs` |
| Base.MessageTimes | collectors/data-collector-base.js:203-238 | the `Timestamp` tag is `floor(nowMs/1000)` iff `tagSeconds`, else `nowMs`; body `next_funding_sec` and `timestamp_sec` are the floors of ms/1000 |
| Base.Dispatch | collectors/data-collector-base.js:190-276 | steps in order: no process id, skip, dry run, delivered or failed; the message is the built one; only dry run or delivery overwrites `dex:pair` with `{nowMs, rate, next}`, everything else leaves the map unchanged |
| Base.BatchTouchesOnlyItsKeys | collectors/data-collector-hyperliquid.js:109-135 | the send loop leaves the entry of every key no item addresses unchanged |
| Base.BatchRemembersLastSend | collectors/data-collector-hyperliquid.js:109-135 | a remembered send that no later item overrides stays in the map with its clock reading, rate and next time |
| Base.Normalise | collectors/data-collector-base.js:150-154 | a non-numeric rate becomes 0 and a non-numeric next funding becomes now; liquidity and fees are kept |
| Base.Collector.constructor | collectors/data-collector-base.js:121-142 | the collector starts with the configured settings and the restored last-sent map |
| Base.Collector.Remember | collectors/data-collector-base.js:181-188 | `_remember` overwrites exactly the `dex:pair` entry |
| Base.Collector.SendToAOS | collectors/data-collector-base.js:190-276 | the outcome and new last-sent map are exactly `Base.Dispatch`; it never throws |
| Base.Collector.SendBatch | collectors/data-collector-hyperliquid.js:109-135 | the per-pair send loop counts every item and ends in the state of the shared send loop |
| Base.Collected | collectors/data-collector-base.js:144-161 | the per-pair loop as a fold: one outcome per configured pair |
| Base.CollectOne | collectors/data-collector-base.js:146-159 | one pair: no outcome and an unchanged memory exactly when its collection threw; otherwise `sendToAOS` (`Dispatch`) of its normalised record |
| Base.CollectedAt | collectors/data-collector-base.js:148-158 | pair `i`'s outcome is `CollectOne` run against the memory the earlier pairs left |
| Base.CollectedProperties | collectors/data-collector-base.js:144-161 | over the whole loop, a pair has no outcome exactly when its fetch failed, and pairs it never visits keep their memory entry |
| Base.Collector.CollectPair | collectors/data-collector-base.js:146-159 | the pair's outcome and the new last-sent map are exactly `CollectOne` from the old map |
| Base.CollectedTouchesOnlyItsPairs | collectors/data-collector-base.js:144-161 | keys of pairs the loop does not visit keep their memory entry |
| Base.Collector.CollectAndSend | collectors/data-collector-base.js:144-161 | the outcomes and the new last-sent map are exactly the `Collected` fold from the old map; one outcome per configured pair, none exactly where its fetch failed; keys of other dexes and pairs are untouched |
| Timestamps.FromPositiveSeconds | collectors/data-collector-backpack.js:114-116 | values in (0, 1e12) are multiplied by 1000, others kept |
| Timestamps.FromSeconds | collectors/data-collector-dydx.js:67 | every value below 1e12, zero and negatives included, is multiplied by 1000 |
| Timestamps.SecondsAndMillisAgree | collectors/data-collector-backpack.js:114-116 | a time given in seconds or in milliseconds normalises to the same milliseconds |
| Timestamps.ConversionSettles | collectors/data-collector-extended.js:91-94 | normalising a normalised value changes nothing |
| Timestamps.ConversionsDisagreeOnNegatives | collectors/data-collector-dydx.js:67 | the two rules differ exactly on negative values |
| Winners.QuoteScore | collectors/data-collector-backpack.js:65-69 | 0 outside the priority list, `len - index` inside it |
| Winners.EarlierQuoteOutranks | collectors/data-collector-backpack.js:65-69 | an earlier priority entry scores strictly more than a later one, both positive |
| Winners.Entries | collectors/data-collector-backpack.js:150-151 | `Array.from(grouped.entries())`: one winner per grouped base, in first-insertion order |
| Winners.FoldWellFormed | collectors/data-collector-backpack.js:140-149 | the grouping loop holds exactly the offered bases, each once |
| Winners.HeldIsFirstBest | collectors/data-collector-backpack.js:143-148 | the candidate held for a base has the maximal score, then the maximal OI when OIs count, and is the first such one seen |
| Winners.TwoOffers | collectors/data-collector-backpack.js:143-148 | of two candidates for one base the second replaces the first only when strictly better |
| Winners.EntriesProperties | collectors/data-collector-backpack.js:135-152 | winners have distinct bases, name exactly the offered bases, each is the first best candidate, and there are none only without candidates |
| Winners.Select | collectors/data-collector-backpack.js:135-152 | the selection loop returns the fold's entries |
| Winners.Group | collectors/data-collector-backpack.js:140-149 | the `grouped` loop computes the fold |
| Winners.ListEntries | collectors/data-collector-backpack.js:150-151 | listing `grouped` gives its entries in order |
| Backpack.SplitTokens | collectors/data-collector-backpack.js:45-50 | empty input gives []; tokens are non-empty, upper-case, underscore-free, and dash-free when split on '-' |
| Backpack.SplitTokensOfJoin | collectors/data-collector-backpack.js:45-50 | splitting the '_' or '-' join of clean tokens gives them back |
| Backpack.NonEmpty | collectors/data-collector-backpack.js:49 | drops exactly the empty pieces |
| Backpack.StripPerp | collectors/data-collector-backpack.js:58 | a trailing `PERP` is removed, nothing else changes |
| Backpack.SymbolQuote | collectors/data-collector-backpack.js:55-60 | `""` with fewer than two tokens, otherwise token 1 without its trailing `PERP` |
| Backpack.IsPerpSymbol | collectors/data-collector-backpack.js:61-64 | holds iff the upper-cased symbol contains `PERP` |
| Backpack.RankByQuote | collectors/data-collector-backpack.js:65-69 | bounded by the list length, 0 iff the quote is not in the priority list |
| Backpack.DefaultPriority | collectors/data-collector-backpack.js:19-20 | the default priority is USDC, USD, USDT |
| Backpack.UnderscoreSymbol | collectors/data-collector-backpack.js:45-69 | `SOL_USDC_PERP` has base SOL, quote USDC and rank 3 |
| Backpack.HyphenSymbol | collectors/data-collector-backpack.js:55-60 | `SOL-USDTPERP` has quote USDT |
| Backpack.MarkEntry | collectors/data-collector-backpack.js:110-117 | rate defaults to 0, next funding defaults to now and is converted from seconds when in (0, 1e12) |
| Backpack.MarkPricesKeys | collectors/data-collector-backpack.js:105-120 | the map is well formed and keyed only by non-empty upper-cased symbols of the rows |
| Backpack.MarkPricesLastRowWins | collectors/data-collector-backpack.js:111-117 | the entry of a symbol comes from its last row |
| Backpack.MarkPricesStep | collectors/data-collector-backpack.js:110-118 | one more row is skipped when its symbol is empty, otherwise `set` |
| Backpack.BuildMarkPrices | collectors/data-collector-backpack.js:105-120 | the `_getMarkPrices` loop computes the mark-price map |
| Backpack.BuildOpenInterest | collectors/data-collector-backpack.js:122-132 | the `_getOpenInterest` loop computes the open-interest map, keyed by non-empty symbols |
| Backpack.CandidatesEmpty | collectors/data-collector-backpack.js:138-142 | no candidates exactly when no symbol is an allowed perp |
| Backpack.CandidatesRows | collectors/data-collector-backpack.js:138-148 | each candidate is an allowed perp of its base with its quote rank and OI (missing counts as 0) |
| Backpack.WinnersOfProperties | collectors/data-collector-backpack.js:135-152 | one winner per base, each an allowed perp of that base and the first best candidate; none iff no eligible symbol |
| Backpack.SelectWinners | collectors/data-collector-backpack.js:135-152 | the `_selectWinners` loop returns the winners |
| Backpack.WinnerData | collectors/data-collector-backpack.js:179-188 | rate and next funding from the mark prices (0 and now when missing), OI split evenly (1 000 000 each without OI), fees 0.0002/0.0005 |
| Backpack.PlanOnePerPair | collectors/data-collector-backpack.js:177-197 | every record sent is for an allowed pair, at most one per pair |
| Backpack.KeysWithBase | collectors/data-collector-backpack.js:209-218 | exactly the perp symbols with the requested base |
| Backpack.OnlyBaseSymbols | collectors/data-collector-backpack.js:209-221 | nothing to select exactly when the base is empty, not allowed, or has no perp |
| Backpack.BackpackCollector.constructor | collectors/data-collector-backpack.js:73-77 | allowed pairs and quote priority from the environment, empty cache |
| Backpack.BackpackCollector.GetMarkets | collectors/data-collector-backpack.js:94-103 | serves the cache while fresh, else replaces it with the fetched list; a failed fetch leaves it |
| Backpack.BackpackCollector.CollectAndSend | collectors/data-collector-backpack.js:154-200 | fails iff a fetch failed; nothing to send iff no winner; otherwise the shared send loop over the winners' records |
| Backpack.BackpackCollector.CollectFundingData | collectors/data-collector-backpack.js:203-236 | throws iff a fetch failed or no allowed perp has that base; otherwise the record of the best such market |
| Orderly.SplitPerm | collectors/data-collector-orderly.js:41-46 | empty input iff []; the '_' join of the pieces is the upper-cased symbol |
| Orderly.SplitPermOfJoin | collectors/data-collector-orderly.js:41-46 | splitting the '_' join of clean tokens gives them back |
| Orderly.PermSymbol | collectors/data-collector-orderly.js:41-54 | `PERP_BTC_USDC` has base BTC and quote USDC |
| Orderly.QuoteRank | collectors/data-collector-orderly.js:55-59 | bounded by the list length, 0 iff the quote is not in the priority list |
| Orderly.BuildOpenInterests | collectors/data-collector-orderly.js:90-103 | the loop computes the open-interest table |
| Orderly.OpenInterestsKeys | collectors/data-collector-orderly.js:90-103 | the open-interest table is keyed by exactly the upper-cased symbols, the empty one included |
| Orderly.OpenInterestsLastRowWins | collectors/data-collector-orderly.js:90-103 | a symbol's long and short open interest come from its last row |
| Orderly.InfoEntry | collectors/data-collector-orderly.js:114-121 | funding period 8, cap 0.000375 and floor -0.000375 unless numeric |
| Orderly.InfoTableKeys | collectors/data-collector-orderly.js:114-121 | the info table is keyed by exactly the non-empty upper-cased symbols |
| Orderly.InfoTableLastRowWins | collectors/data-collector-orderly.js:114-121 | a symbol's entry is the one built from its last row |
| Orderly.CandidatesEmpty | collectors/data-collector-orderly.js:129-144 | no candidates exactly when no row has an allowed base |
| Orderly.CandidatesRows | collectors/data-collector-orderly.js:129-144 | each candidate is a row with an allowed base and its quote rank |
| Orderly.WinnersOfProperties | collectors/data-collector-orderly.js:129-144 | one row per allowed base, the first of maximal rank without OI tie-break; none iff no eligible row |
| Orderly.FirstOfEqualRankKept | collectors/data-collector-orderly.js:136-141 | of two rows of equal rank for one base the first is kept (strict `>`) |
| Orderly.SelectWinners | collectors/data-collector-orderly.js:129-144 | the `_selectWinners` loop returns the winners |
| Orderly.FundingRateOf | collectors/data-collector-orderly.js:163 | `est_funding_rate` if numeric, else `last_funding_rate` if numeric, else 0 |
| Orderly.LiquidityOf | collectors/data-collector-orderly.js:165-172 | long and short each fall back to 1 000 000 on their own |
| Orderly.RowData | collectors/data-collector-orderly.js:160-176 | the record's rate, next funding (default now), liquidity and fees 0.0002/0.0005 |
| Orderly.PlanOnePerPair | collectors/data-collector-orderly.js:146-188 | every record sent is for an allowed pair, at most one per pair |
| Orderly.RowsWithBase | collectors/data-collector-orderly.js:197-199 | exactly the rows with the requested base |
| Orderly.OnlyBaseRows | collectors/data-collector-orderly.js:197-199 | nothing to select exactly when the base is empty, not allowed, or absent |
| Orderly.OrderlyCollector.constructor | collectors/data-collector-orderly.js:63-67 | allowed pairs and quote priority from the environment, empty info cache |
| Orderly.OrderlyCollector.GetInfoCache | collectors/data-collector-orderly.js:105-126 | serves the cache while fresh, else replaces it with the fresh info table; a failed fetch leaves it |
| Orderly.OrderlyCollector.CollectAndSend | collectors/data-collector-orderly.js:146-188 | fails iff a fetch failed; nothing to send iff no winner; otherwise the shared send loop over the winners' records; the info cache is refreshed from a fetched table even when another fetch fails, and is kept otherwise |
| Orderly.OrderlyCollector.CollectFundingData | collectors/data-collector-orderly.js:191-218 | throws iff a fetch failed or no row has that allowed base; otherwise the best row's record; the new info cache as in `CollectAndSend` |
| Paradex.DefaultPriority | collectors/data-collector-paradex.js:16-17 | the default priority is USD, USDC, USDT |
| Paradex.ToPairName | collectors/data-collector-paradex.js:111-113 | the upper-cased text before the first '-' |
| Paradex.ToPairNameIsBase | collectors/data-collector-paradex.js:43-46 | the pair name is the base `selectBestMarkets` uses |
| Paradex.DashSymbol | collectors/data-collector-paradex.js:43-46 | `BASE-QUOTE-KIND` splits into its base and quote |
| Paradex.ExampleSymbols | collectors/data-collector-paradex.js:43-46 | `BTC-USDC-PERP` and `BTC-USD-PERP` have base BTC and quotes USDC and USD |
| Paradex.ExampleScores | collectors/data-collector-paradex.js:49-50 | with the default priority, USD scores 3 and USDC 2 |
| Paradex.StaticEntry | collectors/data-collector-paradex.js:90-98 | funding period defaults to 8 hours, fees to 0 |
| Paradex.StaticTableKeys | collectors/data-collector-paradex.js:82-101 | the static table is keyed by exactly the non-empty upper-cased symbols |
| Paradex.StaticTableLastRowWins | collectors/data-collector-paradex.js:82-101 | a symbol's entry is the one built from its last row |
| Paradex.Candidates | collectors/data-collector-paradex.js:43-51 | drops rows with an empty base or quote or a disallowed base; scores by quote, OI defaults to 0 |
| Paradex.CandidatesOfTwo | collectors/data-collector-paradex.js:43-51 | two eligible rows give two candidates in order |
| Paradex.BestMarketsProperties | collectors/data-collector-paradex.js:40-58 | one market per base, the first of maximal score then OI; none iff no eligible row |
| Paradex.QuoteBeatsOpenInterest | collectors/data-collector-paradex.js:52-57 | with the default priority, BTC-USD-PERP (OI 50) beats BTC-USDC-PERP (OI 100) |
| Paradex.SelectBestMarkets | collectors/data-collector-paradex.js:40-58 | the `selectBestMarkets` loop returns the winners |
| Paradex.MarketDataOf | collectors/data-collector-paradex.js:131-142 | next funding is now plus the period in hours (default 8), future funding defaults to the rate, fees come from the static table or 0 |
| Paradex.PlanOnePerPair | collectors/data-collector-paradex.js:115-154 | every record sent is for an allowed pair, at most one per pair |
| Paradex.ParadexCollector.constructor | collectors/data-collector-paradex.js:62-66 | allowed pairs and quote priority from the environment, empty static cache |
| Paradex.Served | collectors/data-collector-paradex.js:82-101 | the cached table when fresh; otherwise the fetched table or the fetch's error |
| Paradex.ParadexCollector.GetMarketsStatic | collectors/data-collector-paradex.js:82-101 | returns `Served` from the old cache; a fresh fetched table replaces the cache wholesale, otherwise it is kept |
| Paradex.ParadexCollector.CollectAndSend | collectors/data-collector-paradex.js:115-154 | fails iff a fetch failed; nothing to send iff no winner; otherwise the shared send loop over the winners' records with the fees of the table `Served` from the old cache; the new static cache is stated, refreshed even when the summary fetch fails |
| Paradex.ParadexCollector.CollectFundingData | collectors/data-collector-paradex.js:157-182 | throws iff a fetch failed or no market has that base; otherwise the best market's data with the fees of the table `Served` from the old cache; the new static cache is stated |
| Aevo.BaseFromInstrumentNameCases | collectors/data-collector-aevo.js:33-40 | empty gives empty; a name with '-' gives the upper-cased text before the first '-'; else with '_' the text before the first '_'; else exactly the first min(4, n) of the n capitals of the upper-cased name before its `/PERP.*$/` match |
| Aevo.NameWithDash | collectors/data-collector-aevo.js:37 | a name with '-' gives the upper-cased text before the first '-' |
| Aevo.NameWithUnderscore | collectors/data-collector-aevo.js:38 | a name with '_' and no '-' gives the text before the first '_' |
| Aevo.NameWithoutSeparator | collectors/data-collector-aevo.js:39 | a separator-free `a + "PERP" + b`, with no `PERP` starting inside `a` and no line break in `b`, gives the first four capitals of the upper-cased `a` |
| Aevo.FirstPerpMatchIsLeftmost | collectors/data-collector-aevo.js:39 | the search returns a position where `PERP` is followed by no line terminator up to the end, with no such position between `from` and it, or -1 when there is none |
| Aevo.CutPerp | collectors/data-collector-aevo.js:39 | what the replace leaves is a prefix of the input |
| Aevo.CutPerpAtLeftmostMatch | collectors/data-collector-aevo.js:39 | nothing is cut iff `/PERP.*$/` matches nowhere; otherwise the cut is at a match and no match starts earlier; a name without `PERP` is kept whole |
| Aevo.CutPerpAfter | collectors/data-collector-aevo.js:39 | `A + "PERP" + B` with no `PERP` starting inside `A` and no line terminator in `B` is cut to `A` |
| Aevo.TrailingLineBreakNotCut | collectors/data-collector-aevo.js:39 | a name ending in a line terminator is never cut |
| Aevo.Letters | collectors/data-collector-aevo.js:39 | only capitals survive; a string of capitals is unchanged |
| Aevo.LettersOfChar | collectors/data-collector-aevo.js:39 | one character is kept iff it is a capital A-Z |
| Aevo.LettersAppend | collectors/data-collector-aevo.js:39 | letters of a concatenation are the concatenated letters, so every capital is kept in order |
| Aevo.FirstFour | collectors/data-collector-aevo.js:39 | `.slice(0, 4)`: the first min(4, n) characters |
| Aevo.BareName | collectors/data-collector-aevo.js:39 | worked example: `BTCPERP` gives BTC |
| Aevo.DigitsDropped | collectors/data-collector-aevo.js:39 | worked example: `1INCHPERP` gives INCH, the digit is dropped |
| Aevo.NameEndingInLineBreak | collectors/data-collector-aevo.js:39 | a separator-free name ending in a line terminator gives the first four capitals of the whole upper-cased name |
| Aevo.CapitalsThenLineBreak | collectors/data-collector-aevo.js:39 | capitals followed by a line terminator give their first four, `PERP` included |
| Aevo.LineBreakAfterPerp | collectors/data-collector-aevo.js:39 | worked example: `BTCPERP` followed by a line feed gives BTCP, since `.` does not match the line feed and nothing is cut |
| Aevo.DashedName | collectors/data-collector-aevo.js:37 | worked example: `btc-perp` gives BTC |
| Aevo.UnderscoreName | collectors/data-collector-aevo.js:38 | worked example: `ETH_PERP` gives ETH |
| Aevo.NormaliseShape | collectors/data-collector-aevo.js:76-81 | names upper-case, types lower-case; empty name iff every name field is empty |
| Aevo.InstrumentsSound | collectors/data-collector-aevo.js:76-81 | every instrument kept is a normalised row with a non-empty name |
| Aevo.InstrumentsComplete | collectors/data-collector-aevo.js:76-81 | every row with a non-empty normalised name is kept |
| Aevo.TargetsSound | collectors/data-collector-aevo.js:124-127 | every target is a perp instrument with a non-empty allowed base |
| Aevo.TargetsComplete | collectors/data-collector-aevo.js:124-127 | every such instrument is a target |
| Aevo.FundingOf | collectors/data-collector-aevo.js:92-100 | rate from the first present field of the four, default 0; next funding now + 1 h; fixed liquidity and fees |
| Aevo.PresentFieldShadowsLater | collectors/data-collector-aevo.js:97 | a present non-numeric `funding_rate` gives 0 |
| Aevo.PlanSize | collectors/data-collector-aevo.js:136-161 | no more records than targets; all when every fetch succeeds; none when all fail |
| Aevo.PlanAppend | collectors/data-collector-aevo.js:136-161 | each target's result depends only on its own fetch |
| Aevo.PlanOfOne | collectors/data-collector-aevo.js:146-151 | a target is skipped exactly when its funding fetch fails |
| Aevo.FindInstrument | collectors/data-collector-aevo.js:169-170 | the first instrument wanted for the pair, or none |
| Aevo.AevoCollector.constructor | collectors/data-collector-aevo.js:43-47 | allowed pairs from the environment, empty cache |
| Aevo.Served | collectors/data-collector-aevo.js:62-90 | the cached instruments when fresh; otherwise the normalised fetched instruments or the fetch's error |
| Aevo.AevoCollector.GetMarkets | collectors/data-collector-aevo.js:62-90 | returns `Served` from the old cache; fetched instruments replace the cache, otherwise it is kept |
| Aevo.AevoCollector.CollectAndSend | collectors/data-collector-aevo.js:119-164 | fails iff the instruments `Served` from the old cache are an error; nothing to send iff they give no target; otherwise the shared send loop over the records whose fetch succeeded; the new cache is stated |
| Aevo.AevoCollector.CollectFundingData | collectors/data-collector-aevo.js:166-178 | throws the listing's error when it fails, and throws when no instrument of the `Served` list matches; otherwise the first match's funding, or its error; the new cache is stated |
| Hyperliquid.ParseListing | collectors/data-collector-hyperliquid.js:74-88 | accepted iff the response is `[meta, ctxs]` with as many names as contexts |
| Hyperliquid.Served | collectors/data-collector-hyperliquid.js:63-92 | the cache when hit, else the parsed fetch |
| Hyperliquid.ZeroTtlAlwaysRefetches | collectors/data-collector-hyperliquid.js:65-67 | with TTL 0 the cache is never used |
| Hyperliquid.DataOf | collectors/data-collector-hyperliquid.js:94-126 | next funding now + 8 h; OI split 0.3/0.7, or 1 000 000 each without OI; fees -0.00005/0.0003 |
| Hyperliquid.PlanSound | collectors/data-collector-hyperliquid.js:109-116 | every record sent pairs an allowed upper-cased name with its context |
| Hyperliquid.PlanComplete | collectors/data-collector-hyperliquid.js:109-116 | every allowed name is sent |
| Hyperliquid.FindName | collectors/data-collector-hyperliquid.js:144-145 | the first case-insensitive match, or none |
| Hyperliquid.HyperliquidCollector.constructor | collectors/data-collector-hyperliquid.js:34-41 | allowed pairs from the environment, empty cache |
| Hyperliquid.HyperliquidCollector.FetchMetaAndCtxs | collectors/data-collector-hyperliquid.js:63-92 | the served listing; the cache is replaced only after a successful refetch |
| Hyperliquid.HyperliquidCollector.CollectAndSend | collectors/data-collector-hyperliquid.js:104-138 | fails iff the listing fails; otherwise the shared send loop over the allowed names; the new cache is stated, so successive calls on one collector compose (a runner cycle uses a fresh one) |
| Hyperliquid.HyperliquidCollector.CollectFundingData | collectors/data-collector-hyperliquid.js:141-160 | throws iff the listing fails or no name matches; otherwise the match's record; the new cache is stated |
| Dydx.ResolveNextFundingMs | collectors/data-collector-dydx.js:65-71 | missing time gives now + 8 h; a number below 1e12 is multiplied by 1000; a date string is parsed; anything else gives now + 8 h |
| Dydx.FirstPresentFieldWins | collectors/data-collector-dydx.js:66 | an unusable present `nextFundingTime` hides a later numeric field |
| Dydx.ExtractFundingRate | collectors/data-collector-dydx.js:73-78 | `nextFundingRate` whenever defined (0 when non-numeric), else `fundingRate`, else 0 |
| Dydx.NullNextRateIsZero | collectors/data-collector-dydx.js:73-78 | a null `nextFundingRate` gives 0 |
| Dydx.DataOf | collectors/data-collector-dydx.js:80-102 | rate and next funding as above; OI split evenly or 1 000 000 each; fees 0.0002/0.0005 |
| Dydx.PairIsTickerPrefix | collectors/data-collector-dydx.js:91-92 | the pair is the upper-cased ticker before the first '-' |
| Dydx.Served | collectors/data-collector-dydx.js:52-63 | the cache when hit; otherwise an error unless the response carries an object-valued `markets` |
| Dydx.PlanSound | collectors/data-collector-dydx.js:85-113 | every record sent is an allowed pair with its market's data |
| Dydx.PlanComplete | collectors/data-collector-dydx.js:85-113 | every allowed market is sent |
| Dydx.FindKey | collectors/data-collector-dydx.js:117-118 | the first key starting with `PAIR-`, case-insensitively, or none |
| Dydx.DydxCollector.constructor | collectors/data-collector-dydx.js:30-37 | allowed pairs from the environment, empty cache |
| Dydx.DydxCollector.FetchAllMarkets | collectors/data-collector-dydx.js:52-63 | the served markets; the cache is replaced only after a successful refetch |
| Dydx.DydxCollector.CollectAndSend | collectors/data-collector-dydx.js:85-113 | fails iff the markets fail; otherwise the shared send loop over the allowed markets; the new cache is stated, so successive calls on one collector compose (a runner cycle uses a fresh one) |
| Dydx.DydxCollector.CollectFundingData | collectors/data-collector-dydx.js:115-132 | throws iff the markets fail or no key matches; otherwise the match's record; the new cache is stated |
| Extended.BaseFromNameProperties | collectors/data-collector-extended.js:44-47 | the base is upper-case and dash-free, ignores case, and is the whole name when it has no '-' |
| Extended.DataOf | collectors/data-collector-extended.js:84-102 | rate from `marketStats.fundingRate ?? fundingRate`; next funding in (0, 1e12) times 1000, non-positive gives now + 8 h; even OI split; fixed fees |
| Extended.SecondsOrMillis | collectors/data-collector-extended.js:91-94 | a next time in seconds or in milliseconds gives the same record |
| Extended.Served | collectors/data-collector-extended.js:49-73 | the cache when hit; otherwise `json.data`, else the array itself, else [] |
| Extended.PlanSound | collectors/data-collector-extended.js:75-114 | every record sent is an allowed market's data |
| Extended.PlanSize | collectors/data-collector-extended.js:75-114 | one record per allowed market |
| Extended.NoDedupPerBase | collectors/data-collector-extended.js:80-83 | two allowed markets with one base are both sent |
| Extended.FindMarket | collectors/data-collector-extended.js:119-121 | the first market with the base, or none |
| Extended.ExtendedCollector.constructor | collectors/data-collector-extended.js:38-42 | allowed pairs from the environment, empty cache |
| Extended.ExtendedCollector.FetchMarkets | collectors/data-collector-extended.js:49-73 | the served markets; the cache is replaced only after a successful refetch |
| Extended.ExtendedCollector.CollectAndSend | collectors/data-collector-extended.js:75-114 | fails iff the markets fail; otherwise the shared send loop over the allowed markets; the new cache is stated, so successive calls on one collector compose (a runner cycle uses a fresh one) |
| Extended.ExtendedCollector.CollectFundingData | collectors/data-collector-extended.js:117-140 | throws iff the markets fail or none matches; otherwise the first match's record; the new cache is stated |
| Runner.JitterBounds | collectors/run-hyperliquid.js:16 | `floor((2r - 1) * jitter)` lies in [-jitter, jitter) for positive jitter |
| Runner.NextDelay | collectors/run-hyperliquid.js:14-19 | returns the base when jitter is not positive; otherwise at least 1000 and 1000 or within jitter of the base |
| Runner.NextDelayOrderly | collectors/run-orderly.js:12-14 | always at least 1000; jitter applies whenever it is non-zero |
| Runner.DelayRulesCompared | collectors/run-orderly.js:12-14 | the rules agree with positive jitter and, without jitter, differ exactly for a base under 1 s |
| Runner.Scheduler.constructor | collectors/run-hyperliquid.js:8-10 | all flags clear, no cycle, no delay |
| Runner.Scheduler.StartOnce | collectors/run-hyperliquid.js:21-31 | an overlapping tick changes nothing; otherwise a cycle starts and is in flight |
| Runner.Scheduler.FinishOnce | collectors/run-hyperliquid.js:35-38 | whatever the outcome, `isRunning` and `inFlight` are cleared |
| Runner.Scheduler.ShutdownStart | collectors/run-hyperliquid.js:54-56 | a second signal does nothing; the first sets `stopped` |
| Runner.Scheduler.ShutdownFinish | collectors/run-hyperliquid.js:58-65 | after the in-flight cycle settles, the process exits |
| Runner.Scheduler.Loop | collectors/run-hyperliquid.js:41-48 | the loop stops after the cycle in which the signal came; it sleeps after every earlier cycle with the chosen rule's delay |
| Manager.IndexOfLegs | runner/manager.py:31-36 | the first entry with the same short and long DEX, or the list length |
| Manager.UpsertCases | runner/manager.py:29-39 | a matching entry is replaced in place at the first match; otherwise the entry is appended |
| Manager.UpsertProperties | runner/manager.py:26-39 | the entry is present; the list grows by at most one; no duplicate leg pair appears |
| Manager.HandleOneEffect | runner/manager.py:12-39 | an opportunity without a pair is ignored; otherwise its pair's list holds the entry; other pairs are untouched |
| Manager.HandledConsistent | runner/manager.py:12-39 | every list keeps distinct leg pairs across a whole batch |
| Manager.HandledLeavesOtherPairs | runner/manager.py:12-39 | lists of pairs not in the batch are unchanged |
| Manager.OpportunityStore.constructor | runner/manager.py:4-7 | empty table, no last update |
| Manager.OpportunityStore.HandleOpportunity | runner/manager.py:9-44 | the table becomes the batch upsert, `last_updated` is now, and the call reports stored |
| Manager.OpportunityStore.GetLatest | runner/manager.py:46-47 | returns the stored state unchanged |
| Dashboard.KeptExactly | front-end/script.js:67-76 | an opportunity is kept iff it passes the APR, DEX and risk filters |
| Dashboard.FilteredSound | front-end/script.js:63-77 | every result passes the pair, search and row filters |
| Dashboard.FilteredComplete | front-end/script.js:63-77 | every opportunity passing all filters is in the result |
| Dashboard.FilteredExactly | front-end/script.js:55-77 | membership in the result is exactly passing all filters |
| Dashboard.InsertMultiset | front-end/script.js:79 | sorted insertion adds exactly one element |
| Dashboard.InsertSorted | front-end/script.js:79 | sorted insertion keeps the order |
| Dashboard.SortIsSorted | front-end/script.js:79 | the sort leaves the rows in non-increasing net APR |
| Dashboard.SortIsPermutation | front-end/script.js:79 | the sort is a permutation of its input |
| Dashboard.SortProperties | front-end/script.js:79 | the sort is non-increasing in net APR and a permutation |
| Dashboard.FilterOpportunities | front-end/script.js:55-80 | the result is sorted, a permutation of the filtered rows, and holds exactly the qualifying opportunities |
| Dashboard.TopIsBest | front-end/script.js:82-88 | the top row exists iff any opportunity qualifies, and it has the maximal net APR |

## Left out

- HTTP plumbing (`_fetch`, `_fetchJson`, `_postJson`, timeouts, error text): each fetch is its outcome after `withRetry`, a value or an error.
- Delivery through `@permaweb/aoconnect`, the wallet file and `dotenv`: foreign calls and credentials. Delivery is an oracle of successes and failures.
- `loadLastState`/`saveLastState`. This is file I/O, so the map is restored as a constructor parameter.
- Aevo `_runPool` is concurrency. The funding fetches are modelled sequentially: result `i` comes from target `i`. The model also assumes a positive pool size: with `AEVO_MAX_CONCURRENCY` set to 0, a negative number or a non-number, `active < maxConc` is never true, no task starts, the promise never resolves and the cycle hangs (collectors/data-collector-aevo.js:14, 106).
- Sleeping, `setInterval`, signals and `process.exit`. Delays are recorded in `Scheduler.delays`, and exit is the `exited` flag.
- The `SEND_SLEEP_MS` pause between batch sends (collectors/data-collector-base.js:138, 269) is a sleep and is not modelled. Its effect on later timestamps is covered by the clock parameter `clock(i)`.
- `Date.now()` is one reading `now` per cycle for next-funding defaults and cache ages. The send loop's own clock readings (`nowMs`) are a separate parameter, `clock(i)`.
- `Date.parse` of dYdX date strings is opaque: a string carries the value it parses to, if any.
- IEEE-754 behaviour (NaN propagation, rounding of `oi * 0.5`, `Math.pow`) is not modelled. Numbers are exact reals.
- Retry.WithRetry: the delays are reals, not numbers handed to `setTimeout`.
- Non-integer or non-numeric `BASE_INTERVAL_MS`/`JITTER_MS` (NaN jitter) is not modelled; they are integers.
- Retry.Spec: `retries` is an integer. A non-integer `AOS_RETRIES` such as 1.5 is not modelled: there `i === retries` never holds, so the loop makes `floor(retries) + 1` calls, also waits after the last, and then throws.
- Case mapping is ASCII only; no Unicode case folding.
- Logging and debug output.
- Manager.OpportunityStore.GetLatest: returns the stored values. Python hands back the live module-level dict, so a caller that mutates it changes the store; that aliasing is not modelled.
- `Object.entries` ordering of integer-like keys in dYdX `markets` and dashboard data is not modelled. Keys are taken in the order given.
- Paradex `future_funding` is not put in the outbound message, because the shared message is built from the funding record alone. `CollectFundingData` returns it in `MarketData`.
- Manager: the model reads the clock once per `handle_opportunity` call and uses that one `now` for every entry and for `last_updated`. The source calls `int(time())` again for each stored entry (runner/manager.py:23) and once more for `last_updated` (runner/manager.py:41). So in the source, entries stored by one call that crosses a second boundary can carry different timestamps, and `last_updated` can be later than all of them; in the model they are all equal.
- Manager: each incoming element keeps only `pair`, `short_dex`, `long_dex`, `net_apr` and `risk_level`; other fields are dropped. The model takes the DEXs and the risk level to be absent or a string, and `net_apr` to be absent or a number. The source stores whatever JSON value it finds there.
- Manager.OpportunityStore.HandleOpportunity: every element is taken to be an object whose `pair` is absent or a string. In the source, an element that is not a dict (say `"x"`) makes `opp.get` raise AttributeError (runner/manager.py:13). A truthy unhashable `pair`, such as a list, makes `pair not in table` raise TypeError (runner/manager.py:26). Because `table` is the live stored dict (runner/manager.py:10), the upserts of the elements before the bad one stay stored. `last_updated` keeps its previous value, since runner/manager.py:41 never runs, and `{"stored": True}` is not returned. The model has no such error outcome.
- A collector whose constructor throws ends its cycle like a failed cycle (`FinishOnce`).
- `runner/ao-api.cjs`, `runner/bridge/webhook.py` and `collectors/ecosystem.config.cjs` are network and deployment code and are not part of this model.
- `collectors/run-paradex.js` is bare `setInterval` glue with no guard or jitter logic.
- DOM rendering, themes, `localStorage` and `fetchData` in `front-end/script.js`.
- Base.Batch: its own contract states only one outcome per item. What the loop does to the last-sent map is stated by BatchTouchesOnlyItsKeys and BatchRemembersLastSend.
- Backpack.OpenInterest: its contract states only that keys are non-empty. The loop is tied to it by BuildOpenInterest.
