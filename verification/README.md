# Verification model of the research kernel

The kernel turns exchange candles into a backtest ledger: it pages candles from
an exchange, stores them as canonical CSV, resamples and aligns timeframes,
computes indicators, shows a strategy a bounded view per bar, and executes its
intents bar by bar. This project models that path from candle to ledger and
proves what the kernel promises: no lookahead, exact accounting, stop-first
execution, complete buckets, prefix-only hashes, and canonical text.

| files | component |
|---|---|
| `Timeframes`, `Candles`, `Series`, `Derivation`, `Resampling` | aligned candle series and complete-bucket resampling |
| `Counting`, `Alignment` | the no-lookahead mapping from execution bars to closed context bars |
| `MathRules`, `Intents`, `Engine` | the bar-by-bar engine: a class whose loop mutates the run state, and the state machine it refines |
| `EngineLedger`, `EngineResults`, `EngineOrders`, `EngineCausality`, `TradePlans` | what every run keeps, what completed runs satisfy, how they follow the provider's intents, what two runs share, and when a trade is possible at all |
| `Extrema`, `Averages`, `Indicators` | the seven indicator calculators and their assembly |
| `Histories`, `IndicatorViews`, `DecisionViews`, `ComposedViews`, `ViewCausality`, `Readiness` | bounded views, prefix hash chains, readiness |
| `InputIdentity`, `VisibleHashes`, `HashingExists` | the digests of an input and of a view, what each binds, and that such digests exist |
| `StrategyAdapter`, `StrategyRuns` | the provider adapter with its counters, the runner and the result envelope |
| `NoLookahead`, `DigestPeeking`, `IdentityExample` | the end-to-end theorem, its exact condition, and a concrete pair of runs where it fails |
| `Ranges`, `Pagination`, `Query` | page fetching against any client, cursor paging |
| `Texts`, `Decimals`, `CandleCsv` | decimal text and the CSV serializer and parser |
| `Results`, `Integers`, `Totals` | option and result types, integer arithmetic, sums |

Conventions. Instants are integer microseconds counted from the Monday
0001-01-01T00:00:00Z. Prices, quantities and money are exact reals. Raised
errors are `Err` values, so that "cannot be raised" is a theorem. Code that
updates state is a class or a loop proved equal to a specification function;
the theorems are about that function. A provider is a function of everything it
has been shown, which covers providers with memory. The rounded decimal
operations of the indicators are a parameter (`Arithmetic`): causality and
warm-up hold for any operations, bounds for exact ones. SHA-256 over a
structured document is a function of that document; freedom from collisions is
assumed only where a converse is stated. Documents hold texts, digests and whole
numbers, and prices reach a digest only as canonical decimal text, so collision-free
digests of them exist; `HashingExists` constructs them.

One promise fails as the code stands. Besides the bounded view, a provider is
handed digests of the whole input: of the bundle, of each context and its
alignment, and the candle view's own hash. They cover future bars, so a provider
that acts on them is not causal, and fills of a run may depend on bars that come
later. `DigestsLeak` is such a pair of completed runs. `EveryProviderFillsAlike`
is the exact condition, which a caller can check before a run: the digests agree,
or neither input can be traded before bar k, that is, no ready bar is followed
before k by an open at which some supported entry is executable and can be left
again. For every provider that does not act on digests the pipeline has no
lookahead (`PipelineHasNoLookahead`).

The alignment factory reports any break in the open times as a gap, where the
series check distinguishes duplicates and disorder.

To verify: `dafny verify dfyconfig.toml`.

## Model

| member | source | states |
|---|---|---|
| Timeframes.AlignFloorIsFloor | src/zorqen_research/domain/timeframes.py:90-120 | The floor computed from hour, minute and weekday fields is the floor to a multiple of the duration counted from a Monday midnight, and an instant is aligned exactly when it is such a multiple. |
| Timeframes.AlignFloorIsGreatestAligned | src/zorqen_research/domain/timeframes.py:90-91 | The floor is aligned, not after its argument, and no aligned instant lies between them. |
| Timeframes.CoarserAlignmentIsFiner | src/zorqen_research/domain/timeframes.py:118-120 | An instant aligned to a timeframe is aligned to every timeframe whose duration divides it. |
| Timeframes.StepKeepsAlignment | src/zorqen_research/domain/timeframes.py:118-120 | Shifting by whole durations keeps alignment. |
| Candles.MakeCandle | src/zorqen_research/domain/candles.py:44-86 | Construction succeeds exactly for fields that meet every candle invariant, and changes nothing. |
| Series.NoDefectMeansCanonical | src/zorqen_research/domain/market_data/series.py:43-82 | Checking each candle only against its predecessor accepts exactly the series whose candle i opens i durations after an aligned first open and closes 1 ms before the next. |
| Series.RequireCanonicalSeries | src/zorqen_research/domain/market_data/series.py:43-82 | The scanning loop returns the first defect in order, or the series itself exactly when it is canonical. |
| Derivation.PlanIsExact | src/zorqen_research/domain/market_data/derivation.py:13-32 | A plan exists exactly when the target duration is a proper multiple of the source duration; its ratio is that quotient, and the ratio-range error cannot occur. |
| Derivation.RatiosMultiply | src/zorqen_research/domain/market_data/derivation.py:13-32 | Ratios multiply along a chain of timeframes. |
| Resampling.MergeAllSplits | src/zorqen_research/domain/market_data/series.py:85-124 | Aggregation is associative: a run of candles may be cut anywhere, the parts merged, and the results merged. |
| Resampling.MergedEnds | src/zorqen_research/domain/market_data/series.py:85-124 | An aggregate opens with its first part and closes with its last. |
| Resampling.MergedExtremes | src/zorqen_research/domain/market_data/series.py:85-124 | The high and low bound every part and are attained by parts. |
| Resampling.MergedSums | src/zorqen_research/domain/market_data/series.py:98-107 | Volumes and trade count of an aggregate are the sums over its parts. |
| Resampling.MergedIsValid | src/zorqen_research/domain/market_data/series.py:85-124 | Merging valid candles gives a valid candle, so the candle constructor cannot reject an aggregate. |
| Resampling.AggregateBucket | src/zorqen_research/domain/market_data/series.py:85-124 | The accumulating loop never fails on a non-empty bucket and returns the merge of its children, re-timed to the target slot. |
| Resampling.AggregateCompleteBuckets | src/zorqen_research/domain/market_data/series.py:180-201 | The appending loop produces one aggregate per complete bucket, in order. |
| Resampling.TargetIsMerged | src/zorqen_research/domain/market_data/series.py:180-201 | Over a canonical source each target also closes exactly where its last child closes, so it is the plain merge of its bucket. |
| Resampling.TargetsAreCanonical | src/zorqen_research/domain/market_data/series.py:180-201 | The target series is itself gap-free and aligned in the target timeframe. |
| Resampling.FinalCloseIsImplied | src/zorqen_research/domain/market_data/resampling.py:42-83 | The last target closes with the last source candle: the final close-time guard cannot fire. |
| Resampling.ChildrenAreInPlace | src/zorqen_research/domain/market_data/series.py:150-177 | Children of a canonical source always open where the placement check expects them. |
| Resampling.VerifyCompleteBuckets | src/zorqen_research/domain/market_data/series.py:127-177 | On any source whatever, the verifier accepts a target exactly when the source is made of evenly opened whole buckets from a target boundary, the target is their aggregation, and both close together. |
| Resampling.PlacementIsEven | src/zorqen_research/domain/market_data/series.py:154-165 | Checking children bucket by bucket asks exactly that candle j of the source opens j durations after the first. |
| Resampling.CanonicalIsVerifiable | src/zorqen_research/domain/market_data/series.py:127-177 | On a canonical source that divides into aligned buckets the placement and final-close checks are implied. |
| Resampling.FromVerifiedSeries | src/zorqen_research/domain/market_data/series.py:226-270 | The series factory succeeds exactly on a derivable pair, canonical source and correct target; so it never rejects the resampler's own output. |
| Resampling.ResampleCandles | src/zorqen_research/domain/market_data/resampling.py:21-83 | The resampler returns the first failing precondition in the program's order, or the verified aggregation; none of its later guards can fire once the preconditions hold. |
| Resampling.ResamplingConserves | src/zorqen_research/domain/market_data/series.py:180-201 | Over the series the target totals exactly the four volumes and the trade count of the source, and keeps its first open, last close, high and low. |
| Resampling.ResamplingComposes | src/zorqen_research/domain/market_data/series.py:180-201 | For three timeframes with a direct plan, resampling in two stages is allowed and gives the same candles as resampling in one. |
| Alignment.ComputeNoLookaheadMapping | src/zorqen_research/domain/market_data/alignment.py:91-105 | The two-pointer loop computes the specified mapping; its reads of the context, which are never taken back, number at most execution length plus context length. |
| Alignment.MappingIsLatestClosed | src/zorqen_research/domain/market_data/alignment.py:91-105 | Entry i is the greatest context index closing no later than execution bar i, and absent exactly when every context candle closes later. |
| Alignment.VisibleCountClosedForm | src/zorqen_research/domain/market_data/alignment.py:91-105 | On a canonical context the visible count is the number of whole context durations since its first open (closing millisecond included), clipped to the series. |
| Alignment.VisibleCountIsMonotone | src/zorqen_research/domain/market_data/alignment.py:91-105 | Later decisions see at least as many context candles. |
| Alignment.AssertMappingBound | src/zorqen_research/domain/market_data/alignment.py:108-142 | The binding check accepts the derived mapping and no other. |
| Alignment.FromCandles | src/zorqen_research/domain/market_data/alignment.py:199-247 | The alignment factory succeeds exactly on a derivable pair of canonical series and carries the derived mapping. |
| Alignment.AlignWithCountingContext | src/zorqen_research/domain/market_data/alignment.py:403-437 | The instrumented run agrees with the factory and spends at most execution plus context reads. |
| Counting.CountingSequence.Get | src/zorqen_research/domain/market_data/alignment.py:30-42 | Each element read adds one to the counter and changes nothing else. |
| Alignment.ResampledContextIsPast | src/zorqen_research/domain/market_data/alignment.py:91-105 | When the context is the resample of the execution series with ratio r, exactly (i+1)/r context bars are visible at bar i, and they are the resample of execution bars up to i alone. |
| Alignment.FutureBarsCannotLeak | src/zorqen_research/domain/market_data/alignment.py:91-105 | Two execution series equal up to bar i give the same visible resampled context at bar i. |
| MathRules.FloorToTickIsGreatest | src/zorqen_research/domain/backtesting/math_rules.py:53-55 | The tick floor is on the grid and no grid price lies between it and the price. |
| MathRules.CeilToTickIsLeast | src/zorqen_research/domain/backtesting/math_rules.py:58-60 | The tick ceiling is on the grid and no grid price lies between the price and it. |
| MathRules.QuantityAlignedMeansOnGrid | src/zorqen_research/domain/backtesting/math_rules.py:29-50 | The remainder test accepts exactly the whole multiples of the quantity step. |
| MathRules.BuyFillIsAdverse | src/zorqen_research/domain/backtesting/math_rules.py:63-93 | A buy fill is at or above its reference by less than slippage plus one tick. |
| MathRules.SellFillIsAdverse | src/zorqen_research/domain/backtesting/math_rules.py:68-98 | A sell fill is at or below its reference by less than slippage plus one tick. |
| MathRules.FeeIsNonNegative | src/zorqen_research/domain/backtesting/math_rules.py:101-103 | A fee is never negative. |
| MathRules.SlippageStaysPositive | src/zorqen_research/domain/backtesting/policy.py:46-50 | What the accepted slippage range buys: from a positive reference a slipped sell price is positive exactly below 10,000 basis points, and a slipped buy never undercuts the reference. |
| Engine.RunState.ExecutePending | src/zorqen_research/application/backtesting/engine.py:120-161 | The pending market intent is executed at the open as the specified transition of the whole run state, or raises the same error. |
| Engine.RunState.Close | src/zorqen_research/application/backtesting/engine.py:143-160 | Booking an exit updates equity, curve, fills, trades, position and sequence numbers as specified. |
| Engine.RunState.ExecuteProtective | src/zorqen_research/application/backtesting/engine.py:163-187 | Protective exits are the specified transition of the run state, on the entry bar too. |
| Engine.RunState.AskProvider | src/zorqen_research/application/backtesting/engine.py:189-204 | The decision at the close shows the provider exactly the specified context and queues exactly the selected intent. |
| Engine.RunState.OpenDecision | src/zorqen_research/application/backtesting/engine.py:189-199 | The context of the bar is recorded as given and nothing else changes. |
| Engine.RunState.TakeReply | src/zorqen_research/application/backtesting/engine.py:200-204 | A reply queues exactly the selected intent, or raises the same error. |
| Engine.RunState.Finish | src/zorqen_research/application/backtesting/engine.py:206-273 | End of data records the unfilled intent, forces the close and builds the result as specified. |
| Engine.BacktestEngine.CheckInput | src/zorqen_research/application/backtesting/engine.py:102-106 | Input is refused at its first defect, then on a digest mismatch. |
| Engine.RunState.ForceClose | src/zorqen_research/application/backtesting/engine.py:216-238 | An open position is closed at the last close, or the run is rejected, as specified. |
| Engine.MaxDrawdown | src/zorqen_research/application/backtesting/engine.py:599-608 | The one-pass loop computes the specified drawdown. |
| Engine.BacktestEngine.Run | src/zorqen_research/application/backtesting/engine.py:96-273 | The imperative run equals the specification of a run, errors included, for every candle sequence and provider. |
| EngineLedger.BarsKeepSound | src/zorqen_research/application/backtesting/engine.py:119-204 | After any number of bars the ledger is a sequence of linked, correctly booked, first-touch round trips plus at most one open position that has survived every bar since entry; money reconciles at every moment. (EngineOrders ties these to the intents.) |
| EngineLedger.GuardsAreUnreachable | src/zorqen_research/application/backtesting/engine.py:123-142 | A queued intent never meets the execution guards against a second position or a missing one. |
| EngineResults.RunsNeverMeetTheGuards | src/zorqen_research/application/backtesting/engine.py:123-142 | No run of any provider on any candles ends in the "enter while open" or "exit while flat" execution error. |
| EngineOrders.BarsObey | src/zorqen_research/application/backtesting/engine.py:119-204 | After any number of bars every order so far is executed and every fill is its order; the last order is the pending intent, and every reply was acceptable. |
| EngineOrders.EntryIsExact | src/zorqen_research/application/backtesting/engine.py:376-454 | An entry is executed exactly at the opens whose adverse fill price is positive, lies strictly inside the asked and the tick-normalised bracket, and reaches the minimum notional. |
| EngineOrders.CompletedRunExecutesOrders | src/zorqen_research/application/backtesting/engine.py:119-214 | In every completed run there is an entry fill at bar b exactly when the reply at bar b-1 was one entry intent, and an explicit exit exactly when it was one exit intent; any other reply was the empty tuple; nothing fills at the open of bar 0; the last reply is exactly what is reported unfilled. |
| EngineOrders.CompletedFillsFollowOrders | src/zorqen_research/application/backtesting/engine.py:376-454 | Each entry fill has the id, direction, side and quantity of its bar's intent at the bar's open, an open at which that intent is executable, with at least the minimum notional; each explicit exit has its intent's id; protective and forced exits have none. |
| EngineOrders.CompletedTradesKeepOrders | src/zorqen_research/application/backtesting/engine.py:398-419 | Each trade has the direction and quantity of the intent that opened it, decided one bar earlier, valid for the policy and executable at its open with at least the minimum notional; its bracket is the intent's, each level moved to the tick grid by less than a tick, down for a long and up for a short. |
| EngineResults.CompletedRunIsRoundTrips | src/zorqen_research/application/backtesting/engine.py:119-238 | In every completed run each trade is a pair of fills; all bars from entry to before exit lie strictly inside its bracket (which CompletedTradesKeepOrders ties to the intent); a stop or target exit is at the first touching bar, stop first, flagged ambiguous exactly when both were touched; an end-of-data trade survived every bar; fills are in bar order and re-entries strictly after the previous exit bar. |
| EngineResults.CompletedRunConserves | src/zorqen_research/application/backtesting/engine.py:240-273 | Final equity is initial plus net P&L; fees of fills and trades agree; net is gross less fees; the curve has one point per fill plus one and steps by each trade's fee and net. |
| EngineResults.CompletedRunCountsPartition | src/zorqen_research/application/backtesting/engine.py:557-597 | Exit-reason counts and win/loss/flat counts each partition the trades. |
| EngineResults.DrawdownIsWorstFall | src/zorqen_research/application/backtesting/engine.py:599-608 | The drawdown is the greatest curve[i]-curve[j] over i<=j, and is attained. |
| EngineResults.CompletedDrawdownIsWorstFall | src/zorqen_research/application/backtesting/engine.py:599-608 | The drawdown a completed run reports is the worst fall of its realised equity curve. |
| EngineResults.FrictionNeverHelps | src/zorqen_research/application/backtesting/engine.py:386-454 | A trade's gross P&L is at most the signed reference-price move times quantity, and falls short of it by less than the two slippage amounts plus two ticks, times quantity. |
| EngineResults.StopLossesLose | src/zorqen_research/application/backtesting/engine.py:470-532 | Every stop-loss trade has negative gross and net P&L. |
| EngineResults.StopLossCountIsBounded | src/zorqen_research/application/backtesting/engine.py:557-597 | The stop-loss count never exceeds the losing count. |
| EngineCausality.ContextsFollowBars | src/zorqen_research/application/backtesting/engine.py:189-204 | The contexts a provider has been given are the bars in order, one each, with matching index, candle and processed count. |
| EngineCausality.ContextsShowTheLedger | src/zorqen_research/application/backtesting/engine.py:189-199 | The context of bar b shows the open position, the realised equity and the last closed trade of the run as the fills of bar b left them, in every longer run too. |
| EngineCausality.LedgerDependsOnPast | src/zorqen_research/application/backtesting/engine.py:119-204 | The whole ledger after k bars is the same for two runs that agree on those bars and whose providers answer alike on them. |
| EngineCausality.FillsOnlyGrow | src/zorqen_research/application/backtesting/engine.py:119-204 | A longer run keeps every fill of a shorter one and adds only fills of later bars. |
| EngineCausality.FillsDependOnPast | src/zorqen_research/application/backtesting/engine.py:119-238 | Two completed runs that share their first k bars, and whose providers answer alike on all of them but the last, make the same fills before bar k, a forced close apart. |
| EngineCausality.PrefixRunIsPrefix | src/zorqen_research/application/backtesting/engine.py:119-238 | The fills of the run on a prefix, less a final forced close, are a prefix of the fills of the run on the whole. |
| EngineCausality.PrefixRunCompletes | src/zorqen_research/application/backtesting/engine.py:216-238 | Cut short at bar k, a completed run completes exactly when k > 0 and it is flat there, or may force its position closed at a positive price. |
| EngineCausality.OpenFillsIgnoreTheirBar | src/zorqen_research/application/backtesting/engine.py:120-161 | Entries and explicit exits at bar k are unchanged by altering bar k's high, low or close or anything later. |
| TradePlans.IdleBars | src/zorqen_research/application/backtesting/engine.py:119-204 | A provider that has asked for nothing so far has left the run at its start, and has been shown the contexts of a flat ledger at initial equity. |
| TradePlans.NeverTrading | src/zorqen_research/application/backtesting/engine.py:96-273 | On a gap-free series a provider that never asks for anything completes its run without a fill. |
| TradePlans.PlanCompletes | src/zorqen_research/application/backtesting/engine.py:119-238 | A provider on a feasible plan (one entry, then the first exit its bracket, its own exit intent or the end of data gives) completes its run, and the planned entry is the first fill. |
| TradePlans.FirstTradeIsPlanned | src/zorqen_research/application/backtesting/engine.py:119-238 | Conversely the first trade of any completed run of any provider is a feasible plan, decided by the reply one bar before its entry. |
| TradePlans.TradingIsFeasibility | src/zorqen_research/application/backtesting/engine.py:119-238 | So on a gap-free series some provider completes a run whose first fill is at bar n exactly when a plan entering at bar n is feasible, a condition on policy and candles alone. |
| TradePlans.FillableIsFeasible | src/zorqen_research/application/backtesting/engine.py:216-238 | With the close forced and every way out at a positive price, an open that executes the entry is enough for a feasible plan. |
| Extrema.WindowExtremeMeaning | src/zorqen_research/application/indicators/extrema.py:33-61 | The specified window extreme bounds every value of the window and is one of them. |
| Extrema.Push | src/zorqen_research/application/indicators/extrema.py:43-56 | Pushing an index keeps the deque a staircase of window extremes, at an amortised read cost. |
| Extrema.RollingExtrema | src/zorqen_research/application/indicators/extrema.py:33-61 | The deque form equals the naive window at every index, for every series, period and direction, with at most 4n element reads. |
| Extrema.PriorExtrema | src/zorqen_research/application/indicators/extrema.py:64-108 | The prior-window form equals its naive window at every index, with at most 4n element reads. |
| Extrema.PriorIsRollingDelayed | src/zorqen_research/application/indicators/extrema.py:64-108 | Prior extremes are the rolling extremes one bar later, undefined at index 0. |
| Averages.EmaClose | src/zorqen_research/application/indicators/ema.py:17-50 | The loops that carry the seed sum and the previous value fill the list with the EMA recurrence, for any rounded arithmetic. |
| Averages.TrueRangeValues | src/zorqen_research/application/indicators/volatility.py:17-36 | The loop carrying the previous close computes the true range of every bar. |
| Averages.WilderAtr | src/zorqen_research/application/indicators/volatility.py:51-83 | The loop carrying the running average computes the Wilder recurrence over true ranges. |
| Averages.EmaStaysWithin | src/zorqen_research/application/indicators/ema.py:25-42 | In exact arithmetic the EMA stays between any bounds of the closes it has read. |
| Averages.WilderStaysWithin | src/zorqen_research/application/indicators/volatility.py:61-75 | In exact arithmetic the Wilder average stays between any bounds of the ranges it has read. |
| Averages.TrueRangeIsStretchedRange | src/zorqen_research/application/indicators/volatility.py:17-36 | In exact arithmetic the true range is the bar's range stretched to take in the previous close. |
| Averages.ExactIsSignSafe | src/zorqen_research/application/indicators/volatility.py:17-36 | Exact arithmetic preserves signs, so the sign assumption on rounded operations can be met. |
| Averages.RecurrencesAreLocal | src/zorqen_research/application/indicators/ema.py:25-42 | EMA and Wilder values at i depend only on inputs up to i, for any arithmetic. |
| Indicators.RequireWarmupShape | src/zorqen_research/application/indicators/assembly.py:130-148 | The loop accepts exactly the lists undefined on the declared prefix and defined after it. |
| Indicators.EnforceCodeInvariants | src/zorqen_research/application/indicators/assembly.py:151-202 | The check accepts exactly the lists that meet the warm-up and sign invariants of their code. |
| Indicators.ShapeCounts | src/zorqen_research/application/indicators/assembly.py:126-148 | The defined count of a list of warm-up shape is its length less the prefix, never below zero. |
| Indicators.CalculatedIndicatorSeries | src/zorqen_research/application/indicators/assembly.py:205-268 | A result is built exactly when parameters, length and invariants hold, and its metadata follows from the values. |
| Indicators.CalculatorsHaveShape | src/zorqen_research/application/indicators/assembly.py:130-148 | Each of the seven calculators is undefined on exactly its declared warm-up, whatever the arithmetic. |
| Indicators.CalculatorsMeetInvariants | src/zorqen_research/application/indicators/assembly.py:151-202 | Each calculator meets its code's invariants under any sign-preserving rounding, so assembly never rejects one. |
| Indicators.Compute | src/zorqen_research/application/indicators/assembly.py:205-268 | Calculating and assembling fails only on bad parameters, and otherwise yields the specified series. |
| Indicators.CalculatorsAreCausal | src/zorqen_research/application/indicators/extrema.py:33-108 | Each of the seven calculators run on a prefix gives the prefix of its full output, undefined slots included, for any arithmetic. |
| Histories.SliceStaysVisible | src/zorqen_research/domain/indicator_views/histories.py:146-150 | Whatever its bounds and step, a slice selects only visible indices. |
| Histories.ReadsShowOnlyTheVisible | src/zorqen_research/domain/indicator_views/histories.py:131-159 | Histories with the same visible items answer every index, slice and latest read alike, whatever lies beyond their ends. |
| Histories.FullSliceIsVisible | src/zorqen_research/domain/indicator_views/histories.py:146-150 | A full slice is exactly what is visible. |
| IndicatorViews.ComputePrefixHashChain | src/zorqen_research/application/indicator_views/prefix_hashes.py:56-81 | The chaining loop produces, at each k, the hash of the header and the first k values only. |
| IndicatorViews.PrefixHashBindsTokens | src/zorqen_research/application/indicator_views/prefix_hashes.py:18-81 | Without collisions equal prefix hashes mean equal headers and the same texts of the same number of values. |
| IndicatorViews.PrefixHashBinds | src/zorqen_research/application/indicator_views/prefix_hashes.py:18-81 | And, values being decimals, prefix hashes agree exactly when the headers and all visible values do, whatever the two lengths. |
| Decimals.TextOfPrints | src/zorqen_research/application/market_data/serialization.py:33-39 | A printer of values that prints every decimal representation canonically exists. |
| IndicatorViews.DefinedPrefixCounts | src/zorqen_research/application/indicator_views/feed.py:19-27 | The running loop yields the defined count of every prefix. |
| IndicatorViews.FromBundle | src/zorqen_research/application/indicator_views/feed.py:41-105 | The feed holds one source per series, each with the chains computed from its own values. |
| IndicatorViews.FindItemIsExact | src/zorqen_research/domain/indicator_views/views.py:160-192 | A lookup by key finds the series exactly when the view has it. |
| IndicatorViews.ViewDependsOnPast | src/zorqen_research/domain/indicator_views/views.py:103-158 | Two bundles of the same request with the same candles up to a bar give the same view there: values, counts, readiness, prefix hashes and view hash. |
| IndicatorViews.ReadyMeansWarmedUp | src/zorqen_research/domain/indicator_views/views.py:46-72 | A view is ready exactly when every series is past its declared warm-up. |
| DecisionViews.ContextGuardsHold | src/zorqen_research/domain/strategy_backtesting/decision_views.py:53-103 | On verified input no guard of a context view fires, and it shows exactly the candles closed by the bar. |
| DecisionViews.BaseViewExists | src/zorqen_research/domain/strategy_backtesting/decision_views.py:125-210 | On verified input every bar has its candle view. |
| ComposedViews.FromComposition | src/zorqen_research/application/strategy_backtesting/indicator_feed.py:34-56 | The composed feed holds a feed for each configured slot, built from its own bundle. |
| ComposedViews.SlotGuardsHold | src/zorqen_research/application/strategy_backtesting/indicator_feed.py:72-117 | Over a trusted feed no guard of a context slot fires, and its indicator bar is its latest closed context bar. |
| ComposedViews.ExecutionGuardsHold | src/zorqen_research/application/strategy_backtesting/indicator_feed.py:58-70 | Over a trusted feed the execution indicator view is the one at the execution bar and matches its symbol, timeframe and counts. |
| ComposedViews.ViewAtBar | src/zorqen_research/application/strategy_backtesting/indicator_feed.py:58-124 | Assembly in a loop over the contexts yields the specified composed view at every bar; only a bar index outside the series is refused. |
| ViewCausality.ComposedViewDependsOnPast | src/zorqen_research/domain/strategy_backtesting/indicator_decision_views.py:84-202 | Equal configuration, equal execution bars up to i and equal closed context bars give equal histories, slots, readiness and provider-visible hash at i. |
| VisibleHashes.ViewHashBinds | src/zorqen_research/domain/indicator_views/views.py:103-158 | Without collisions two view hashes agree exactly when the views are of the same bar and market, request the same series, and show the same values. |
| VisibleHashes.ComposedHashBinds | src/zorqen_research/domain/strategy_backtesting/indicator_decision_views.py:84-202 | Without collisions two provider-visible hashes agree exactly when bar, readiness, configuration, closed context candles and every visible indicator value agree. |
| Readiness.ReadinessIsExact | src/zorqen_research/domain/strategy_backtesting/indicator_decision_views.py:172-174 | The readiness gate in closed form: visible counts against declared warm-ups and indicator prefixes, nothing else. |
| Readiness.ReadinessIsMonotone | src/zorqen_research/domain/strategy_backtesting/decision_views.py:172-175 | Once ready, every later bar is ready. |
| Readiness.FirstReady | src/zorqen_research/domain/strategy_backtesting/decision_views.py:172-175 | The first ready bar: ready there, and at no bar before it. |
| InputIdentity.CsvTextBinds | src/zorqen_research/application/market_data/serialization.py:46-68 | Canonical CSV, which is what a series digest is taken of, tells any two gap-free aligned decimal series of a timeframe apart. |
| InputIdentity.CandleHashBinds | src/zorqen_research/domain/strategy_backtesting/inputs.py:167-190 | The digests of two canonical decimal series agree exactly when the series do. |
| InputIdentity.BundleHashBindsInput | src/zorqen_research/domain/strategy_backtesting/inputs.py:193-220 | The bundle digest, computed over series, alignment and strategy digests, agrees exactly when strategy, configuration and all series agree, future bars included. |
| InputIdentity.BaseHashBindsWholeInput | src/zorqen_research/domain/strategy_backtesting/decision_views.py:176-199 | The candle view's own hash covers the whole input: with the same configuration and visible past two such hashes agree exactly when the whole execution and context series agree. |
| InputIdentity.IdentityIsContents | src/zorqen_research/domain/strategy_backtesting/inputs.py:193-234 | All digests handed to a provider agree exactly when the contents do. |
| IdentityExample.ExampleIsTrusted | src/zorqen_research/domain/strategy_backtesting/inputs.py:86-234 | The concrete inputs of the example pass the input factory's checks, carry the digests of their own contents, and their contexts are the resample of their execution bars. |
| IdentityExample.ViewHashesLeak | src/zorqen_research/domain/strategy_backtesting/decision_views.py:176-199 | These inputs share five bars and differ in the sixth; their candle-view hashes differ at each shared bar. |
| HashingExists.CollisionFreeHasherExists | src/zorqen_research/application/indicator_views/prefix_hashes.py:28-81 | The assumptions on prefix digests can be met: such a hasher is constructed. |
| HashingExists.BindingDigestsExist | src/zorqen_research/domain/strategy_backtesting/inputs.py:193-220 | So can those on series and bundle digests, with canonical CSV as the text of a series. |
| HashingExists.SoundCodecExists | src/zorqen_research/application/market_data/serialization.py:46-68 | And a timestamp codec that meets what the CSV theorems assume of one. |
| HashingExists.BindingViewDigestsExist | src/zorqen_research/domain/strategy_backtesting/indicator_decision_views.py:84-120 | And so can those on candle views, indicator views and composed views, by texts that are constructed. |
| StrategyAdapter.MultiTimeframeIndicatorProviderAdapter.constructor | src/zorqen_research/application/strategy_backtesting/indicator_provider.py:43-59 | A new adapter has seen nothing and counted nothing. |
| StrategyAdapter.MultiTimeframeIndicatorProviderAdapter.OnBarClose | src/zorqen_research/application/strategy_backtesting/indicator_provider.py:61-105 | Each call answers as the provider function the engine is given, with the program's guards, gate and direction check, and shows the provider the engine context, the composed view and all identity digests; its counters and what has been shown are functions of the contexts seen. |
| StrategyRuns.EngineContextsPass | src/zorqen_research/application/strategy_backtesting/indicator_provider.py:61-80 | The engine's own contexts pass every adapter guard, and the gate is the readiness of that bar. |
| StrategyRuns.CountsFollowReadiness | src/zorqen_research/application/strategy_backtesting/indicator_provider.py:82-92 | The skipped count is the first ready index, and skips and invocations always sum to the bars seen. |
| StrategyRuns.EntriesPassTheGate | src/zorqen_research/application/strategy_backtesting/indicator_provider.py:80-105 | In a completed run every entry was decided one bar earlier, at a ready bar, in a direction the strategy supports. |
| StrategyRuns.TradesPassTheGate | src/zorqen_research/application/strategy_backtesting/indicator_provider.py:80-105 | So every trade of a completed run has a supported direction, and no fill of any kind is at or before the first ready bar. |
| StrategyRuns.EnvelopeAcceptsEveryRun | src/zorqen_research/domain/strategy_backtesting/results.py:65-90 | After any completed run the envelope's count partition, policy-digest and candle-digest checks all pass. |
| StrategyRuns.ServeRun | src/zorqen_research/application/strategy_backtesting/indicator_runner.py:44-52 | The engine loop with the adapter object answering ends exactly as the run of the provider function, and the adapter has seen exactly the run's contexts. |
| StrategyRuns.RunStrategy | src/zorqen_research/application/strategy_backtesting/indicator_runner.py:22-60 | The runner raises exactly the engine's error, or returns the envelope of the run with the skipped count equal to the first ready index; the envelope never rejects. |
| NoLookahead.SamePastShrinks | src/zorqen_research/domain/market_data/alignment.py:91-105 | The same visible past at a bar is the same visible past at every earlier bar. |
| NoLookahead.SamePastSameStrategy | src/zorqen_research/application/strategy_backtesting/indicator_provider.py:61-105 | On inputs with the same visible past before bar k a strategy answers alike, on any history of up to k contexts, if its provider ignores identity digests, or they agree, or no bar before k is ready. |
| NoLookahead.StrategyFillsDependOnPast | src/zorqen_research/application/strategy_backtesting/indicator_runner.py:22-60 | Two completed runs of one strategy, on inputs that share the execution bars before k and what is visible through bar k-2, make the same fills before bar k, a forced close apart, if the provider ignores identity digests, or they agree, or no bar before k-1 is ready. |
| NoLookahead.ResampledPastIsExecutionPast | src/zorqen_research/application/strategy_backtesting/indicator_runner.py:22-60 | With contexts resampled from the execution series, equal execution bars up to i are already an equal visible past at i. |
| NoLookahead.PipelineHasNoLookahead | src/zorqen_research/application/strategy_backtesting/indicator_runner.py:22-60 | The whole pipeline: change any execution bar from k on, rebuild contexts and indicators from it, and no fill before bar k changes, a forced close apart, for every provider that ignores identity digests, and for any provider when digests agree or no bar before k-1 is ready. |
| DigestPeeking.PeekingAnswers | src/zorqen_research/application/strategy_backtesting/indicator_provider.py:61-105 | A provider that acts on recognising one input is asked, and acts, at exactly that input's ready bars. |
| DigestPeeking.PeekingTellsApart | src/zorqen_research/application/strategy_backtesting/indicator_provider.py:80-92 | Where digests differ at a ready bar, that provider answers differently on the very history to which both of its runs have come. |
| DigestPeeking.EveryProviderAnswersAlike | src/zorqen_research/application/strategy_backtesting/indicator_provider.py:25-30 | Every provider answers alike through bar k on inputs with one visible past exactly when the digests it is handed agree or no bar before k is ready. |
| DigestPeeking.OnlyWholeInputsAreAlike | src/zorqen_research/application/strategy_backtesting/indicator_provider.py:25-30 | Digests being those of the contents, that is when the whole inputs are the same or nothing was shown. |
| DigestPeeking.UntradableMakesNoFills | src/zorqen_research/application/strategy_backtesting/indicator_runner.py:22-60 | If no feasible plan enters before bar k, decided at a ready bar in a supported direction, no completed run of any provider has a fill before bar k. |
| DigestPeeking.PeekingSplitsRuns | src/zorqen_research/application/strategy_backtesting/indicator_runner.py:22-60 | If digests differ and one input allows such a plan, the provider that trades it on recognising that input completes both runs: one with the planned entry first, the other without a fill. |
| DigestPeeking.EveryProviderFillsAlike | src/zorqen_research/application/strategy_backtesting/indicator_runner.py:22-60 | The exact condition of no lookahead: on inputs that share a past before bar k, the completed runs of every provider make the same fills before bar k, a forced close apart, exactly when the digests agree or neither input can be traded before bar k. |
| DigestPeeking.OnlyWholeInputsFillAlike | src/zorqen_research/application/strategy_backtesting/indicator_runner.py:22-60 | Digests being those of the contents, that is when the whole inputs are the same or neither can be traded before bar k. |
| DigestPeeking.PipelineFillsAlike | src/zorqen_research/application/strategy_backtesting/indicator_runner.py:22-60 | The same exact condition for resampled contexts, where sharing the execution bars before k is enough. |
| DigestPeeking.UnreadyIsUntradable | src/zorqen_research/application/strategy_backtesting/indicator_provider.py:80-82 | Nothing can be traded before bar k if no bar before k-1 is ready. |
| DigestPeeking.ReadyAndFillableIsTradable | src/zorqen_research/application/strategy_backtesting/indicator_runner.py:22-60 | Something can if the close is forced, a ready bar i with i+1 < k is followed by an open that executes an entry, and stop, target and last close give positive exit prices. |
| IdentityExample.DigestsLeak | src/zorqen_research/application/strategy_backtesting/indicator_runner.py:22-60 | A concrete failure: the example inputs, with a true-range bundle, a policy and a bracketed long intent, share everything visible at five bars, and the provider that buys on recognising one of them completes both runs, with its entry at the fourth bar in one and no fill at all in the other. |
| Ranges.ParsedRangeIsWhole | src/zorqen_research/application/market_data/ranges.py:42-82 | An accepted range has a whole positive candle count spanning it exactly, and every candle in it has closed by now. |
| Pagination.FilterPage | src/zorqen_research/application/market_data/pagination.py:77-91 | The inner loop keeps the in-range rows of a page or raises the first objection, and records exactly their opens as seen. |
| Pagination.FetchKlinesRange | src/zorqen_research/application/market_data/pagination.py:34-102 | The cursor loop equals its specification for any client, and never raises the "did not advance" error. |
| Pagination.FetchNeverStalls | src/zorqen_research/application/market_data/pagination.py:95-99 | The cursor strictly advances past every accepted page, so that error is unreachable from any cursor. |
| Pagination.FetchedIsOrdered | src/zorqen_research/application/market_data/pagination.py:50-102 | Whatever the client returns, a result has strictly increasing opens inside the range and took at most the range length in durations, rounded up, requests. |
| Integers.CeilDivIsLeast | src/zorqen_research/application/market_data/pagination.py:50-102 | The request bound is the least number of durations that cover the range. |
| Pagination.AssertCompleteCoverage | src/zorqen_research/application/market_data/pagination.py:105-119 | Coverage accepts exactly start + k*duration for the expected count; its check against the range bounds cannot fire. |
| Pagination.FaithfulFetchIsComplete | src/zorqen_research/application/market_data/pagination.py:50-119 | An exchange that always returns some non-empty run of its book from the cursor, cut in pages any way, yields the full series, and coverage accepts it. |
| Pagination.LimitedServerIsFaithful | src/zorqen_research/application/market_data/pagination.py:34-67 | A server with page limit at least one is such an exchange. |
| Query.CollectMatchingPage | src/zorqen_research/application/market_data/query.py:208-230 | The early-stopping loop returns the first limit+1 matches and consumes nothing after the lookahead match. |
| Query.PaginateCandles | src/zorqen_research/application/market_data/query.py:233-247 | A page holds the first matches, and a cursor exactly when more follow. |
| Query.MatchingIsFilter | src/zorqen_research/application/market_data/query.py:219-227 | The matches are, in order, exactly the candles within the bounds and past the cursor. |
| Query.NextQueryContinues | src/zorqen_research/application/market_data/query.py:48-102 | On a canonical series a returned cursor makes a valid query, and that query matches exactly what the page left over. |
| Query.PagesEnumerateOnce | src/zorqen_research/application/market_data/query.py:208-247 | Following the cursors ends after max(1, ceil(m/limit)) pages whose concatenation is the filtered series in order. |
| Decimals.CanonicalText | src/zorqen_research/application/market_data/serialization.py:33-39 | Two decimals print the same exactly when they are equal, whatever their exponents and trailing zeros. |
| Decimals.ParseOfFormat | src/zorqen_research/application/market_data/serialization.py:33-39 | Parsing canonical text gives a decimal equal to the one printed. |
| Decimals.FinerIsSameText | src/zorqen_research/application/market_data/serialization.py:33-39 | Another digit of precision with the same value never changes the text. |
| Texts.SplitOfJoin | src/zorqen_research/application/market_data/csv_reader.py:112-134 | Parts free of the separator survive joining and splitting. |
| CandleCsv.SerializeCandlesCsv | src/zorqen_research/application/market_data/serialization.py:46-68 | The appending loop produces the header and one line per candle, newline-terminated. |
| CandleCsv.LineSplits | src/zorqen_research/application/market_data/csv_reader.py:126-134 | A serialized line passes the blank and whitespace checks and splits back into its eleven fields. |
| CandleCsv.RowIsReadBack | src/zorqen_research/application/market_data/csv_reader.py:51-83 | A serialized row parses to the same numbers. |
| CandleCsv.ParseCanonicalCandlesCsv | src/zorqen_research/application/market_data/csv_reader.py:86-154 | The parser with its row loop equals its specification, errors in the program's order. |
| CandleCsv.CsvRoundTrip | src/zorqen_research/application/market_data/csv_reader.py:86-154 | Parsing the serialization of any gap-free aligned series succeeds and returns numerically equal candles. |
| CandleCsv.AcceptsExactlySerializations | src/zorqen_research/application/market_data/csv_reader.py:86-154 | The parser accepts a text exactly when it is the serialization of some gap-free aligned series, and returns such a series. |
| CandleCsv.TextIdentifiesNumbers | src/zorqen_research/application/market_data/serialization.py:46-68 | Two gap-free aligned series have the same text exactly when their numbers are equal. |

## Left out

- Decimal context rounding: the engine's 28-digit and the indicators' 50-digit half-even contexts are not modelled digit by digit; conservation and price bounds are stated in exact arithmetic, causality and warm-up for any operations.
- MathRules.BuyFillIsAdverse: exact reals, so a tick quotient that overflows the decimal context is not modelled.
- ComposedViews.ViewAtBar: assumes what the bundle and composition factories re-verify (canonical series, derived mappings, series calculated on the bundle's own candles); those long field-by-field comparisons are not modelled.
- StrategyRuns.RunStrategy: the envelope's own digest and the indicator-aware wrapper around it are not modelled.
- Indicators.CalculatedIndicatorSeries: the result hash, symbol and input digest a series carries are not modelled; they are not among what a provider is shown.
- InputIdentity.BundleHashBindsInput: prices and volumes are decimals, as in the program; what the strategy digest is computed from is not modelled.
- Engine.BacktestEngine.Run: result hashes, and the text rendering of fill, trade and position identifiers (here their sequence numbers), are not modelled; the provider is a function of the contexts given so far (StrategyRuns.ServeRun puts the adapter object itself behind the loop).
- CandleCsv.CsvRoundTrip: ISO timestamp text is an abstract codec whose output is trimmed, free of commas and line breaks and ends in Z; text is characters, so malformed UTF-8 is not modelled; readings of non-plain decimal or count text are an arbitrary parameter, since re-serialization rejects them; counts are unbounded, while the program cannot print or read a trade count of more than 4300 digits.
- Timeframes.AlignFloorIsFloor: all integers are instants, so the range limits of the program's timestamps and non-UTC or naive timestamps are not modelled.
- Ranges.ParsedRangeIsWhole: the count is an exact integer quotient; the program divides timedeltas in floating point, which is exact for every quotient its timestamps allow.
- Python runtime type checks (exact tuple, bool against int, subclass and factory bypass rejection): discharged by types.
- The guards of multi-context alignment sets (their digest is modelled), feeds without indicators, and the candle-only adapter: the composed forms modelled here contain them.
- Strategy definitions, symbol text and identifier parsing: single-branch validation around a library parser.
- Database, HTTP, command line, worker, frontend, artifact store, golden scenarios and baseline gates: plumbing and finite data.
