# spot-rebalancer, modelled in Dafny

spot-rebalancer is a trading bot that keeps the total delta of a spot holding
plus a futures position near a target. Each cycle the spot rebalancer reads
the spot and futures exposure in base units and computes the signed gap from
the target. It turns the configured soft and hard thresholds into effective
thresholds: an EMA trend bias and a recent-fills VWAP anchor widen or narrow
them. A hysteresis policy then decides none, partial or full. The trade goes
out maker-first, falling back to a market order when the maker chase runs out.
Around that engine sit smaller components:
- the delta tracker, with its divergence timer;
- the trend detector, a smoothed EMA crossover;
- the risk manager, with drawdown tracking and a halting circuit breaker;
- the position manager, with partial closes and ratcheting trailing stops;
- the older stand-alone rebalancer of `main.py`;
- the arithmetic of the EMA strategy (quantity rounding, trend, two-tier stops,
  the take-profit ladder);
- the decimal-text helpers.

The model has one Dafny module per source file. Each module is named after
the component it models, and `Common` and `Ema` hold the shared vocabulary.
- **Data:** prices, quantities and balances are `real`; clocks are explicit
  `now` parameters. Every answer of the exchange gateway is an abstract
  response datatype, which includes the "no answer" and "raised" cases.
- **Pure code:** pure Python functions are Dafny functions with named results,
  and the properties that hold across calls are lemmas.
- **Stateful code:** an object whose fields the source updates is a class.
  Each of its methods is proved against a specification function on a value
  snapshot of its state, `State()`, and the properties of that function are
  proved as lemmas.
- **Errors:** a Python exception that the source does not catch is an explicit
  outcome (`Outcome.ZeroDivision`, a `...Raised` event), not a precondition.

Two consequences of the source that a reader might not expect:
- `DeltaEngine.GetSpotBase`: an unparseable wallet balance in the middle of
  the scan returns the sum accumulated so far, not 0, because the exception
  is swallowed after the earlier coins were added (bot/core/delta_engine.py:33-37).
- `TrendBias.TrendTerm`: two equal EMAs with a zero threshold score −1, because
  the source tests `diff_pct > 0` for +1 and gives −1 otherwise
  (bot/core/trend_bias.py:67-69).

## Model

| member | source | states |
|---|---|---|
| RebalancePolicy.ToBaseUnits | bot/core/rebalance_policy.py:24-28 | 'base' thresholds pass through unchanged; any other unit gives value·notional divided by the mark price floored at 1e-12 |
| RebalancePolicy.EffectiveThresholds | bot/core/rebalance_policy.py:30-47 | the effective soft threshold is never negative, the hard one never below the soft one, and each is either its floor or its biased value |
| RebalancePolicy.EffectiveWithoutBias | bot/core/rebalance_policy.py:38-47 | with a combined bias of 0, eff_soft = max(0, base_soft) and eff_hard = max(eff_soft, base_hard) |
| RebalancePolicy.SoftMonotoneInBias | bot/core/rebalance_policy.py:40-45 | a larger combined bias never lowers a non-negative soft threshold |
| RebalancePolicy.HardWithinHalfBand | bot/core/rebalance_policy.py:40-46 | whatever the bias, a non-negative hard threshold ends between half and one and a half times its base value, unless raised to the soft threshold |
| RebalancePolicy.DecideSpec | bot/core/rebalance_policy.py:49-81 | a suppressed opposite move or no breach gives 'none' with target 0 and untouched memory; a hard breach gives 'full' with target −gap and memory (eff_hard, sign(gap)); a soft-only breach gives 'partial' with target −ratio·gap and memory (eff_soft, sign(gap)) |
| RebalancePolicy.TradeOpposesGap | bot/core/rebalance_policy.py:71-80 | with a ratio in [0, 1] a non-zero target has the opposite sign of the gap and never overshoots zero |
| RebalancePolicy.HysteresisAfterFull | bot/core/rebalance_policy.py:64-75 | after a full sell at hard threshold H, an opposite gap smaller than fraction·H makes no trade and keeps the memory |
| RebalancePolicy.ThresholdScenarios | bot/core/rebalance_policy.py:38-80 | soft 100 and hard 300 base thresholds with no bias: a gap of 300 sells 300 and a gap of 150 sells 75 at ratio 0.5 |
| RebalancePolicy.Policy.constructor | bot/core/rebalance_policy.py:12-22 | partial_ratio and hysteresis_fraction are clamped into [0, 1]; no memory yet |
| RebalancePolicy.Policy.Decide | bot/core/rebalance_policy.py:49-81 | the decision and new memory are those of DecideSpec, and the memory fields stay paired, positive and ±1 |
| RecentFills.TimestampSeconds | bot/core/recent_fills.py:66-67 | a raw timestamp above 1e12 is milliseconds and divided by 1000; anything else is already seconds |
| RecentFills.AppendBounded | bot/core/recent_fills.py:35-86 | appending to the bounded deque keeps exactly min(old length + 1, max_cached) fills, drops only the oldest, and the new fill is last |
| RecentFills.Reversed | bot/core/recent_fills.py:51 | records are taken oldest first: element i of the result is element n−1−i of the reply |
| RecentFills.Prune | bot/core/recent_fills.py:94-97 | pruning removes only a prefix, every removed fill is older than the cutoff, and the first remaining fill is not |
| RecentFills.PruneIdempotent | bot/core/recent_fills.py:94-97 | pruning twice at the same cutoff is pruning once |
| RecentFills.IngestKeepsWellFormed | bot/core/recent_fills.py:53-87 | only fills with a positive price and quantity and side Buy or Sell enter the cache, which never exceeds max_cached |
| RecentFills.RejectedRecordIgnored | bot/core/recent_fills.py:61-72 | an unreadable record, or one with price ≤ 0, qty ≤ 0 or another side, changes nothing |
| RecentFills.RepeatedRecordIgnored | bot/core/recent_fills.py:74-84 | a record with an id that repeats the last fill (ts within 1e-6, same side, price and qty within 1e-12) is not appended again |
| RecentFills.AcceptedRecordAppended | bot/core/recent_fills.py:86 | an accepted record becomes the newest fill, with its timestamp or `now` when that is 0 |
| RecentFills.CountInWindow | bot/core/recent_fills.py:144 | the sample count is at most the number of cached fills |
| RecentFills.ImbalanceIsNet | bot/core/recent_fills.py:110-120 | the net imbalance is the in-window bought quantity minus the sold quantity, both non-negative |
| RecentFills.BuyVwapWithinPrices | bot/core/recent_fills.py:113-122 | the buy VWAP, when present, lies between the lowest and highest in-window buy price |
| RecentFills.TotalsSkipStale | bot/core/recent_fills.py:110-112 | a fill older than the cutoff contributes nothing to the totals or to the count |
| RecentFills.PruneKeepsWindow | bot/core/recent_fills.py:137-145 | pruning at the window cutoff changes neither the VWAPs, the imbalance nor the sample count |
| RecentFills.EmptyWindowNoAnchor | bot/core/recent_fills.py:102-124 | with no fill in the window both VWAPs are None and the imbalance is 0 |
| RecentFills.VwapExample | bot/core/recent_fills.py:102-124 | buys of 10 at 100 and 5 at 110 and a sell of 8 at 120 give buy VWAP 1550/15, sell VWAP 120, imbalance 7 |
| RecentFills.FillsAnchor.constructor | bot/core/recent_fills.py:23-37 | the window is at least 60 s (truncated to an integer), the poll interval at least 1 s, the cache empty |
| RecentFills.FillsAnchor.FetchNewFills | bot/core/recent_fills.py:39-92 | inside the poll interval nothing changes; otherwise last_poll becomes now and the cache is the reply ingested oldest first, then pruned |
| RecentFills.FillsAnchor.PruneOld | bot/core/recent_fills.py:94-97 | the cache becomes Prune(old cache, now − window) and stays valid |
| RecentFills.FillsAnchor.ComputeVwaps | bot/core/recent_fills.py:102-124 | the loop's totals equal the per-side VWAPs and imbalance of VwapsOf over the cache |
| RecentFills.FillsAnchor.GetAnchor | bot/core/recent_fills.py:126-145 | the cache is pruned, and the anchor reports the VWAPs, imbalance, window and count of in-window fills |
| TrendBias.TrendTerm | bot/core/trend_bias.py:64-69 | the trend term is 0, +1 or −1; it is 0 when ema_slow ≤ 0 or \|diff_pct\| is below the threshold, +1 only when fast > slow and −1 only when fast ≤ slow |
| TrendBias.TrendTermLevelEmas | bot/core/trend_bias.py:67-69 | equal positive EMAs with a threshold ≤ 0 give −1, because a zero diff_pct is not > 0 |
| TrendBias.SlopeTerm | bot/core/trend_bias.py:71-76 | the slope term lies in [−1, 1], is 0 without a positive previous fast EMA, and has the sign of the fast EMA's change |
| TrendBias.BiasOf | bot/core/trend_bias.py:78-86 | the bias lies in [−1, 1] and is 0 when delta_sign_needed is 0 |
| TrendBias.BiasAntisymmetric | bot/core/trend_bias.py:80 | negating delta_sign_needed negates the bias |
| TrendBias.BiasFavoursSellingIntoDowntrend | bot/core/trend_bias.py:78-80 | needing to sell in a downtrend with a non-rising fast EMA gives a bias of at least the trend weight 0.6 |
| TrendBias.CandleStep | bot/core/trend_bias.py:42-52 | unseeded state is unchanged; otherwise prev := old EMAs, each EMA takes one step with α = 2/(period+1), and the close and its time are recorded |
| TrendBias.EmaTrendBias.constructor | bot/core/trend_bias.py:19-26 | periods of 0 are accepted; the configuration is kept and every EMA field starts as None |
| TrendBias.EmaTrendBias.Initialize | bot/core/trend_bias.py:28-40 | no closes or fewer than max(fast, slow) change nothing; otherwise it raises ZeroDivisionError iff a period is 0, with nothing changed when the fast period is 0 and only the fast EMA seeded when only the slow one is; with both periods at least 1 each EMA is the SMA of its first `period` closes, run through the EMA recursion over closes[max(fast, slow):] |
| TrendBias.EmaTrendBias.OnClosedCandle | bot/core/trend_bias.py:42-52 | the new state is CandleStep of the old one |
| TrendBias.EmaTrendBias.GetBias | bot/core/trend_bias.py:54-86 | the bias lies in [−1, 1], is 0 when unseeded and 0 when delta_sign_needed is 0 |
| TrendBias.InitializedWithinCloses | bot/core/trend_bias.py:32-40 | seeded EMAs lie within the range of the closes |
| ExecutionSpot.ClampQty | bot/core/execution_spot.py:35-36 | the clamped size is at least min_trade_base, at most max_trade_base when min ≤ max, and \|qty\| itself when that is already in range |
| ExecutionSpot.ClampIdempotent | bot/core/execution_spot.py:35-36 | clamping a clamped size changes nothing, whatever the bounds |
| ExecutionSpot.Tif | bot/core/execution_spot.py:55-84 | the time in force is PostOnly iff post_only is set, otherwise GTC |
| ExecutionSpot.Market | bot/core/execution_spot.py:38-49 | a clamped size ≤ 0 submits nothing and fails; otherwise exactly one market order of the clamped size, successful iff retCode is 0 |
| ExecutionSpot.PostOnlyLimitOnce | bot/core/execution_spot.py:51-66 | one limit order at the given price for min_trade_base, successful iff accepted |
| ExecutionSpot.MakerFirstAccepted | bot/core/execution_spot.py:76-89 | the first accepted maker placement ends the call with success after k+1 identical limit orders and no market order |
| ExecutionSpot.MakerNoneAccepted | bot/core/execution_spot.py:76-94 | with no placement accepted, every attempt placed a limit order and the fallback decides the result |
| ExecutionSpot.MakerFrom | bot/core/execution_spot.py:76-90 | each attempt places one limit order and either succeeds or leaves the attempts from the next answer |
| ExecutionSpot.ChaseMaker | bot/core/execution_spot.py:75-90 | the chase loop ends with success iff an answer accepted the placement, having placed exactly the attempts MakerAttempts describes; otherwise its limit orders precede the fallback's |
| ExecutionSpot.MakerThenEscalate | bot/core/execution_spot.py:68-94 | the method's result is MakerThenEscalateSpec of the gateway's answers |
| ExecutionSpot.EscalateOutcome | bot/core/execution_spot.py:68-94 | MakerThenEscalateSpec submits nothing for a clamped size ≤ 0; succeeds after k+1 limit orders when answer k is the first accepted; with none accepted, adds the market order iff allow_taker, else fails |
| ExecutionSpot.FallbackUsesMakerSize | bot/core/execution_spot.py:92-93 | the fallback market order is for exactly the clamped maker size |
| DeltaEngine.BaseOfQuotedSymbol | bot/core/delta_engine.py:23 | a symbol made of a base without "USDT" followed by "USDT" has that base as its base symbol |
| DeltaEngine.ScanIsTotalWhenConvertible | bot/core/delta_engine.py:30-35 | when every matching walletBalance converts, get_spot_base is the total of the matching balances across all accounts |
| DeltaEngine.ScanStopsAtUnparseable | bot/core/delta_engine.py:33-37 | a matching balance that does not convert ends the loop: what was added before it is returned |
| DeltaEngine.ScanCompleteIffConvertible | bot/core/delta_engine.py:30-37 | the loop runs to the end exactly when every matching balance converts |
| DeltaEngine.SignedSize | bot/core/delta_engine.py:50 | +size for "Buy", −size for "Sell", 0 for any other side |
| DeltaEngine.FuturesBase | bot/core/delta_engine.py:40-65 | an empty or failed answer or empty list gives 0; a non-zero result comes from the first record, and only with a positive price |
| DeltaEngine.FuturesBasePriceIndependent | bot/core/delta_engine.py:53-62 | the futures exposure is the same for any two positive mark prices |
| DeltaEngine.FuturesBaseOfOpenPosition | bot/core/delta_engine.py:47-62 | with a positive price an open Buy or Sell position gives its signed size |
| DeltaEngine.DeltaEngine.constructor | bot/core/delta_engine.py:19-24 | the futures symbol defaults to the spot symbol, the base symbol drops "USDT" when the spot symbol ends in it, and the desired delta is kept |
| DeltaEngine.DeltaEngine.GetSpotBase | bot/core/delta_engine.py:26-38 | the nested account and coin loop returns SpotBase of the answer |
| DeltaEngine.DeltaEngine.ScanCoins | bot/core/delta_engine.py:32-35 | the coin loop of one account returns exactly the scan of its entries: the matching total and whether every matching balance converted |
| DeltaEngine.ScanAppend | bot/core/delta_engine.py:31-37 | scanning accounts one after the other is scanning their entries together; a conversion failure in an earlier account ends the scan |
| DeltaEngine.DeltaEngine.Snapshot | bot/core/delta_engine.py:67-76 | net_base_delta = spot_base − futures_base and the desired delta is copied from the configuration |
| DeltaEngine.SnapshotOnFailedReads | bot/core/delta_engine.py:26-65 | a failed balance read counts as zero spot exposure and a failed positions read as zero futures exposure |
| Rebalancer.AnchorTerm | bot/core/rebalancer.py:93-105 | selling with a buy VWAP gives +1 iff price ≥ buy_vwap + edge_bps_soft/1e4·buy_vwap, else −1; buying with a sell VWAP is the mirror; 0 when that VWAP is absent or no side is needed |
| Rebalancer.AnchorFavoursOnlyProfitableSide | bot/core/rebalancer.py:98-105 | with a non-negative edge the anchor favours selling only at or above the buy VWAP and buying only at or below the sell VWAP |
| Rebalancer.CombinedBias | bot/core/rebalancer.py:107-115 | the combined bias lies in [−1, 1] and equals the weighted sum whenever that sum is already in [−1, 1] |
| Rebalancer.CombinedBiasUnclipped | bot/core/rebalancer.py:107-115 | non-negative weights summing to at most 1 over components in [−1, 1] never need the clamp |
| Rebalancer.AnchorGateMatchesTerm | bot/core/rebalancer.py:180-187 | the soft-rebalance anchor gate is open exactly when the anchor term for the same side is not −1, so it defaults to open without that VWAP |
| Rebalancer.SpotNotional | bot/core/rebalancer.py:117-129 | a failed balance answer, or a balance that does not read as a number, gives 0; otherwise the summed base wallet balance times the price |
| Rebalancer.TradeSide | bot/core/rebalancer.py:165 | the side is Sell iff the target is negative |
| Rebalancer.TradeSideOpposesGap | bot/core/rebalancer.py:164-165 | full and partial targets sell into a positive gap and buy into a negative one, for a quantity of ratio·\|gap\| |
| Rebalancer.WaitStart | bot/core/rebalancer.py:176-177 | a running soft wait keeps its start; otherwise it starts now |
| Rebalancer.SpotRebalancer.constructor | bot/core/rebalancer.py:22-84 | the sub-engines and configuration are kept and no soft wait is running |
| Rebalancer.SpotRebalancer.CombinedBiasAt | bot/core/rebalancer.py:86-115 | reading the anchor prunes the fills cache, and the result is CombinedBias of the EMA component and the anchor term, within [−1, 1] |
| Rebalancer.SpotRebalancer.Refresh | bot/core/rebalancer.py:136-139 | a closed candle takes one EMA step, then the fills anchor is polled |
| Rebalancer.SpotRebalancer.Evaluate | bot/core/rebalancer.py:148-156 | the combined bias, the effective thresholds and the policy decision are those of the model functions |
| Rebalancer.SpotRebalancer.DispatchFull | bot/core/rebalancer.py:164-171 | a full decision sends one market order for \|target\|, Sell iff target < 0, and clears the soft wait |
| Rebalancer.SpotRebalancer.DispatchPartial | bot/core/rebalancer.py:173-194 | a partial decision runs maker_then_escalate (allow_taker = allowed_on_soft) and clears the wait when the anchor is favourable or the wait reached max_wait; otherwise it places nothing and keeps the start |
| Rebalancer.SpotRebalancer.Decide | bot/core/rebalancer.py:143-194 | a zero gap clears the soft wait and reports balanced; any other gap is evaluated by the policy, and a none, full or partial decision is routed as in DispatchFull and DispatchPartial |
| Rebalancer.SpotRebalancer.StepAt | bot/core/rebalancer.py:137-194 | with a price: the closed candle feeds the EMAs, the fills are polled, and a snapshot gap is answered as in Decide |
| Rebalancer.SpotRebalancer.Step | bot/core/rebalancer.py:131-194 | no price does nothing; a zero gap clears the wait and decides nothing; 'none' places nothing and clears the wait; 'full' and 'partial' are routed as above, after the candle, poll and snapshot |
| DeltaTracker.TrackDivergence | bot/core/delta_tracker.py:165-176 | the timer starts (start := now) only on the transition above the threshold, stops (start := None) on falling to or below it, and is otherwise unchanged; coherence is preserved |
| DeltaTracker.Duration | bot/core/delta_tracker.py:178-182 | None when not diverging or without a start, else now − start |
| DeltaTracker.NeedsRebalance | bot/core/delta_tracker.py:184-201 | false whenever the magnitude is at most the threshold; true exactly when above it with a non-zero duration longer than the timeout |
| DeltaTracker.TimerKeepsFirstStart | bot/core/delta_tracker.py:165-176 | while every sample stays above the threshold the timer keeps the time of the first one |
| DeltaTracker.SustainedDivergenceNeedsRebalance | bot/core/delta_tracker.py:184-201 | a divergence above the threshold since time t needs a rebalance exactly when now − t exceeds the timeout |
| DeltaTracker.Report | bot/core/delta_tracker.py:78-89 | the report's divergence is total − desired, its magnitude the absolute value, and its duration and rebalance flag come from the timer |
| DeltaTracker.FuturesAdjustment | bot/core/delta_tracker.py:203-242 | nothing without a rebalance; otherwise adjustment_usdt = −divergence, quantity·price = \|divergence\|, side Buy iff the divergence is negative; a zero price raises |
| DeltaTracker.AdjustmentRestoresDesired | bot/core/delta_tracker.py:220-223 | applying the adjustment to the futures leg brings the total delta back to the desired one |
| DeltaTracker.DeltaTracker.constructor | bot/core/delta_tracker.py:16-38 | the base symbol drops "USDT", the desired delta, threshold and timeout default to 0, 1000 and 360, and the last-sync fields and timer start cleared |
| DeltaTracker.DeltaTracker.UpdateDivergenceTracking | bot/core/delta_tracker.py:165-176 | the timer becomes TrackDivergence of the old timer |
| DeltaTracker.DeltaTracker.SyncPositions | bot/core/delta_tracker.py:50-88 | the last_* fields take the new exposures, total = futures + spot, the timer tracks \|total − desired\|, and the report is built from them |
| DeltaTracker.DeltaTracker.CachedStatus | bot/core/delta_tracker.py:249-266 | without a price the status is recomputed from the last_* fields only; last_sync_age is present only after a sync |
| DeltaTracker.DeltaTracker.GetStatus | bot/core/delta_tracker.py:244-266 | a missing or zero price reports the cached status and changes nothing; otherwise it syncs |
| DeltaTracker.SyncReportsExposure | bot/core/delta_tracker.py:62-77 | a sync keeps the timer coherent, reports total = futures + spot and divergence = total − desired, and needs a rebalance only while diverging above the threshold |
| TrendDetector.WindowSize | bot/indicators/trend_detector.py:26-27 | an absent or zero smoothing window falls back to the EMA period |
| TrendDetector.Push | bot/indicators/trend_detector.py:41-126 | appending to a full bounded window drops its oldest value; the new value is last and the length stays within capacity |
| TrendDetector.PushSum | bot/indicators/trend_detector.py:124-127 | the running sum after an append is the old sum, minus the evicted front value when the window was full, plus the new value |
| TrendDetector.AppendRaw | bot/indicators/trend_detector.py:124-176 | appending the raw EMA keeps the running sum equal to the sum of a window within capacity |
| TrendDetector.EmaSmoothStep | bot/indicators/trend_detector.py:85-101 | the second-level EMA starts at the raw value and then stays between its old value and the raw value |
| TrendDetector.ApplySmoothing | bot/indicators/trend_detector.py:61-101 | 'none' uses both raw EMAs; 'sma' uses the window mean once the window is full, else the raw EMA; 'ema' uses the second-level EMA; another name changes nothing; the other stream is untouched |
| TrendDetector.SeedEma | bot/indicators/trend_detector.py:54-59 | the seed is the SMA of the first `period` closes and the next index is `period` |
| TrendDetector.Seed | bot/indicators/trend_detector.py:111-137 | seeding puts the SMA seed alone in a cleared window and leaves the other stream untouched |
| TrendDetector.WalkStep | bot/indicators/trend_detector.py:120-145 | one close takes one raw EMA step and keeps the window invariant |
| TrendDetector.WalkRaw | bot/indicators/trend_detector.py:120-145 | the walk feeds the raw EMA exactly the EMA recursion over the closes |
| TrendDetector.DiffPct | bot/indicators/trend_detector.py:197-201 | the percentage distance is non-negative, 0 unless the slow EMA is positive, and 0 for equal EMAs |
| TrendDetector.Classify | bot/indicators/trend_detector.py:188-212 | RANGING when an EMA is missing; UPTREND iff diff_pct ≥ threshold and fast > slow; DOWNTREND iff diff_pct ≥ threshold and fast < slow |
| TrendDetector.UpdateTrend | bot/indicators/trend_detector.py:188-218 | the old trend becomes the previous one, the new one is classified, and cross_detected holds iff the two are opposite UPTREND/DOWNTREND |
| TrendDetector.InitializeSpec | bot/indicators/trend_detector.py:103-151 | no closes or fewer than either period return with nothing changed; with enough closes a period of 0 raises ZeroDivisionError, with nothing changed when the fast period is 0 and after the whole fast stage when only the slow one is; a raise leaves the trend untouched; the window invariants and the seeded-period invariant are preserved |
| TrendDetector.KnownSmoothingCompletes | bot/indicators/trend_detector.py:103-151 | with periods of at least 1, enough closes and smoothing 'none', 'sma' or 'ema', initialize returns normally |
| TrendDetector.UnknownSmoothingRaises | bot/indicators/trend_detector.py:103-151 | with periods of at least 1, enough closes and another smoothing name, initialize raises TypeError at the closing message exactly when an EMA in use was None before the call (as on a fresh detector), and the EMAs in use are left as they were |
| TrendDetector.InitializedRawEmas | bot/indicators/trend_detector.py:110-151 | with periods of at least 1 and enough closes initialize never divides by zero, each raw EMA is its SMA seed run over the closes after its own period, and when the call returns the trend is classified from the EMAs in use |
| TrendDetector.UpdateWithCloseSpec | bot/indicators/trend_detector.py:153-186 | without both raw EMAs nothing changes (a period of 0 never seeds one); otherwise both take one EMA step, the windows move only under 'sma', unsmoothed EMAs are used directly, and the trend is reclassified |
| TrendDetector.TrendDetector.constructor | bot/indicators/trend_detector.py:12-52 | periods of 0 are accepted; the windows default to the periods, every EMA is None, the windows are empty and the trend is RANGING without a cross |
| TrendDetector.TrendDetector.ApplySmoothingAfterAppend | bot/indicators/trend_detector.py:61-101 | the new state is ApplySmoothing of the old one |
| TrendDetector.TrendDetector.AppendRawToWindow | bot/indicators/trend_detector.py:124-127 | the chosen stream becomes AppendRaw of its old value and nothing else changes |
| TrendDetector.TrendDetector.SeedStream | bot/indicators/trend_detector.py:111-119 | the state becomes Seed of the old state |
| TrendDetector.TrendDetector.WalkOne | bot/indicators/trend_detector.py:121-128 | one loop iteration: the state becomes WalkStep of the old state (raw EMA step, window append, smoothing) |
| TrendDetector.TrendDetector.WalkFrom | bot/indicators/trend_detector.py:120-128 | the loop's state is Walk over closes[from:] |
| TrendDetector.TrendDetector.UpdateTrendState | bot/indicators/trend_detector.py:188-218 | the state becomes UpdateTrend of the old state |
| TrendDetector.TrendDetector.Initialize | bot/indicators/trend_detector.py:103-151 | the new state and the way the call ends (returned, ZeroDivisionError, TypeError) are InitializeSpec of the old state |
| TrendDetector.TrendDetector.SmoothStreams | bot/indicators/trend_detector.py:165-184 | the state becomes SmoothBoth of the old state: under SMA each raw value enters its window before smoothing, under EMA both smoothers step, otherwise the raw EMAs are used directly |
| TrendDetector.TrendDetector.UpdateWithClose | bot/indicators/trend_detector.py:153-186 | the state becomes UpdateWithCloseSpec of the old state |
| TrendDetector.TrendDetector.GetAndResetCross | bot/indicators/trend_detector.py:220-223 | it returns the old cross flag and leaves it false |
| EmaSeries.SeedSeriesRecurrence | bot/indicators/trend_detector.py:234-238 | every entry after the seed is one EMA step from the entry before it |
| EmaSeries.ComputeEmaSeriesSeedSma | bot/indicators/trend_detector.py:228-239 | the series has the input's length; it is all None without enough closes or a positive period, otherwise None before index period−1, the SMA at period−1 and EMA steps after |
| EmaSeries.SomeCountBound | bot/indicators/trend_detector.py:245-254 | the count of present entries is at most the window length, and equals it exactly when all are present |
| EmaSeries.SmaAtPresent | bot/indicators/trend_detector.py:247-255 | an SMA entry is present exactly when the last `window` inputs up to it are all present |
| EmaSeries.SlideWindow | bot/indicators/trend_detector.py:247-253 | advancing the loop by one index adds the new entry to the running sum and count and, once i ≥ window, removes entry i − window, so both stay those of the last window entries |
| EmaSeries.SmaOfSeries | bot/indicators/trend_detector.py:241-256 | the output has the input's length, is a copy for window ≤ 1, and otherwise holds the mean of each full window of present values |
| EmaSeries.LastEmaAllAbsent | bot/indicators/trend_detector.py:263-271 | with no present input there is no EMA yet |
| EmaSeries.FirstValueKept | bot/indicators/trend_detector.py:267-268 | the first present entry of the smoothed series equals its input |
| EmaSeries.EmaOfSeries | bot/indicators/trend_detector.py:258-272 | the output has the input's length, is a copy for period ≤ 1, keeps the None positions, and otherwise is the EMA over the present values |
| RiskManager.UpdateBalance | bot/core/risk_manager.py:54-71 | the peak becomes max(peak, balance); with a positive peak the drawdown is (peak − balance)/peak·100, otherwise it is kept; the max drawdown is max(old max, drawdown) |
| RiskManager.DrawdownAtMostFull | bot/core/risk_manager.py:63-67 | a non-negative balance below a positive peak is down at most 100% |
| RiskManager.UpdateAllMonotone | bot/core/risk_manager.py:58-71 | over any run of updates the peak and the max drawdown never decrease, and the peak is at least every balance seen |
| RiskManager.NextLosses | bot/core/risk_manager.py:87-91 | a losing trade increments the consecutive-loss counter; any other trade resets it to 0 |
| RiskManager.LossesCountTrailingRun | bot/core/risk_manager.py:87-91 | after a run of trades the counter is the number of losses at the end of the history, plus the old count when every trade lost |
| RiskManager.MakeTrade | bot/core/risk_manager.py:76-83 | the record keeps pnl, prices and quantity; return_pct·entry·qty = pnl·100 for a positive entry, 0 otherwise; a zero entry notional raises |
| RiskManager.CheckRiskLimits | bot/core/risk_manager.py:103-135 | a halt inside the hour cooldown returns (false, reason) unchanged; otherwise the first breach of drawdown, daily loss or consecutive losses halts with that reason at now; else (true, None) and the halt is cleared |
| RiskManager.HaltHoldsThroughCooldown | bot/core/risk_manager.py:109-115 | once a check halts trading, every check within the cooldown refuses with the same reason, whatever the metrics have become |
| RiskManager.ValidatePositionSize | bot/core/risk_manager.py:137-161 | a size above balance·max_position_pct/100 is accepted cut to exactly that cap; a size within the cap that fits the balance is accepted unchanged; a size within the cap that would exceed the balance is cut to what is left, or refused with 0 when nothing is left; an accepted size is never above the cap nor above the request |
| RiskManager.ValidatedSizeFitsBalance | bot/core/risk_manager.py:151-161 | a size within the cap is accepted only when the exposure plus it fits the balance |
| RiskManager.KellySize | bot/core/risk_manager.py:163-190 | 0.1 when avg_loss or win_rate is 0; a zero avg_win raises; otherwise a value in [0.01, max(cap, 0.01)] |
| RiskManager.RiskRewardOk | bot/core/risk_manager.py:192-203 | false when entry equals the stop; otherwise true iff the profit distance is at least min_risk_reward_ratio times the loss distance |
| RiskManager.RiskManager.constructor | bot/core/risk_manager.py:37-52 | default limits when none are given; peak and current balance are the initial balance; no history and no halt |
| RiskManager.RiskManager.UpdateBalanceNow | bot/core/risk_manager.py:54-71 | the metrics become UpdateBalance of the old metrics |
| RiskManager.RiskManager.RecordTrade | bot/core/risk_manager.py:73-101 | a raising trade record changes nothing; otherwise the trade is appended, the day's P&L grows by pnl, the loss counter follows NextLosses and the balance grows by pnl |
| RiskManager.RiskManager.CheckRiskLimitsNow | bot/core/risk_manager.py:103-135 | the result and the new halt state are those of CheckRiskLimits |
| PositionManager.UpdatePnl | bot/core/position_manager.py:47-59 | unrealized P&L is (price − entry)·qty for a long and (entry − price)·qty otherwise; the peak becomes max(old peak, new P&L), so it is never below it; time in position is now − entry time; nothing else changes |
| PositionManager.IndexOf | bot/core/position_manager.py:136-150 | -1 exactly when no stored position has the id, otherwise the index of the position with that id |
| PositionManager.ExitQuantity | bot/core/position_manager.py:157-160 | the whole quantity when none is given, otherwise min(given, quantity); never above the position's quantity |
| PositionManager.ClosePnl | bot/core/position_manager.py:163-166 | (exit − entry)·q for a long, (entry − exit)·q otherwise |
| PositionManager.CloseSpec | bot/core/position_manager.py:147-178 | an unknown id returns 0 and leaves the table; otherwise the pnl of the capped exit, realized_pnl grows by it, the quantity drops by it and the entry is removed exactly when the quantity reaches ≤ 0 |
| PositionManager.CloseKeepsTable | bot/core/position_manager.py:147-178 | closing keeps the ids unique, increasing and below the counter |
| PositionManager.NetIsSignedTotal | bot/core/position_manager.py:187-191 | long total minus short total equals the sum of the signed per-position contributions |
| PositionManager.NetPosition | bot/core/position_manager.py:187-191 | the net position (long quantity minus short quantity) is the sum over the positions of +quantity for a long, −quantity for a short and 0 otherwise |
| PositionManager.PositionManager.GetNetPosition | bot/core/position_manager.py:187-191 | the manager's net position is the sum of the signed contributions of its tracked positions |
| PositionManager.NetPositionAfterClose | bot/core/position_manager.py:168-191 | closing moves the net position by exactly the signed exit quantity of the closed position |
| PositionManager.NetPositionAfterAdd | bot/core/position_manager.py:127-191 | adding a position moves the net position by its signed quantity |
| PositionManager.ExposureAfterAdd | bot/core/position_manager.py:127-185 | adding a position adds quantity·entry to the exposure |
| PositionManager.StopHits | bot/core/position_manager.py:202-215 | a position reports its id (once per level, at most twice) exactly when its stop loss or its take profit is hit |
| PositionManager.ReportedIffHit | bot/core/position_manager.py:198-217 | an id is in the returned list iff a stored position with that id has a stop loss or a take profit hit at the price |
| PositionManager.HitIsReported | bot/core/position_manager.py:202-216 | every stored position whose stop loss or take profit is hit at the price has its id in the returned list |
| PositionManager.ReportedHasHit | bot/core/position_manager.py:202-216 | every id in the returned list is that of a stored position whose stop loss or take profit is hit |
| PositionManager.Trail | bot/core/position_manager.py:219-234 | a long stop never decreases, a short stop never increases, a missing stop is set with the trail distance; only stop loss and trail distance change |
| PositionManager.LongStopRatchets | bot/core/position_manager.py:219-227 | after two trailing updates a long's stop is at least where either price alone would put it |
| PositionManager.PositionManager.constructor | bot/core/position_manager.py:91-106 | no positions, counter 0, no active orders, empty history, zero volume and commission |
| PositionManager.PositionManager.AddPosition | bot/core/position_manager.py:108-130 | the returned id is the old counter, which was unused; the counter grows by one and the new position is appended with zero P&L and the given stops |
| PositionManager.PositionManager.UpdatePositionStops | bot/core/position_manager.py:132-145 | an unknown id changes nothing; otherwise only the stop loss and take profit that are given replace the old ones |
| PositionManager.PositionManager.ClosePosition | bot/core/position_manager.py:147-178 | pnl and the new table are those of CloseSpec |
| PositionManager.PositionManager.GetTotalExposure | bot/core/position_manager.py:180-185 | the loop's total is Σ quantity·entry over all positions |
| PositionManager.PositionManager.UpdateAllPnl | bot/core/position_manager.py:193-196 | every position becomes UpdatePnl of its old value, ids and order unchanged |
| PositionManager.PositionManager.CheckStopLevels | bot/core/position_manager.py:198-217 | the loop returns AllStopHits of the table, in table order |
| PositionManager.PositionManager.UpdateTrailingStops | bot/core/position_manager.py:219-234 | every position becomes Trail of its old value, ids and order unchanged |
| PositionManager.PositionManager.CancelOrder | bot/core/position_manager.py:295-323 | true iff the reply has retCode 0 or 110001; then a known order leaves active_orders and is appended to history as Cancelled at now; otherwise nothing changes |
| MainRebalancer.TrendOf | main.py:137-151 | missing EMAs give Neutral; a zero slow EMA raises; otherwise Uptrend iff fast/slow > 1 + t, Downtrend iff not that and < 1 − t, Neutral iff neither |
| MainRebalancer.AdjustedThreshold | main.py:153-173 | base·multiplier exactly when trend use is on and the divergence is positive in an uptrend or negative in a downtrend; the base otherwise |
| MainRebalancer.AdjustedThresholdAtLeastBase | main.py:153-173 | with a multiplier ≥ 1 the trend adjustment never lowers the threshold |
| MainRebalancer.EmaOpportunity | main.py:175-230 | triggered iff enabled, EMAs initialised, \|position\| ≥ the minimum, outside the cooldown, the position long, and either an uptrend with price ≥ breakout% above the fast EMA or a downtrend within touch% of it; the suggested ratio is the partial ratio when triggered and 0 otherwise |
| MainRebalancer.FormatQuantity | main.py:645-658 | 0 for qty ≤ 0; a zero step raises; otherwise the nearest step multiple raised to at least the minimum order size, within half a step of qty unless it was raised |
| MainRebalancer.CleanupOrders | main.py:660-678 | after a good reply exactly the tracked ids the exchange still reports open remain; a rejected reply keeps them; an error clears them |
| MainRebalancer.InstrumentSizes | main.py:618-643 | the reported step and minimum, the defaults 1 and 1 after an error, and no sizes after a rejection |
| MainRebalancer.InitializeSpec | main.py:91-122 | a failed request turns trend use off; a rejection or too few closes changes nothing; otherwise both EMAs are the SMA seed smoothed over the last 50 closes and the trend is reclassified, or trend use turns off when that raises |
| MainRebalancer.UpdateEmasSpec | main.py:124-135 | without trend use or EMAs nothing changes; otherwise both EMAs take one smoothing step, the trend is reclassified, and the step raises exactly when the new slow EMA is 0 |
| MainRebalancer.EmaRebalanceSpec | main.py:232-275 | no order for a zero price or a sell without base balance, and otherwise the market order always goes out on the requested side; a sell is the smaller of the requested base quantity and the base balance, a buy spends the smaller of the requested and the available quote; only an accepted order starts both cooldowns |
| MainRebalancer.LimitPrice | main.py:524-530 | the limit price is within half a unit of the fourth decimal of 0.999·price for a buy and of 1.001·price for a sell, and has at most four decimals |
| MainRebalancer.Track | main.py:547-575 | an accepted order's id joins the tracked ids; nothing else does |
| MainRebalancer.CappedBase | main.py:449-483 | no order when the balance on the paying side is empty; a sell is capped at the base balance, a buy at the quote balance |
| MainRebalancer.OrderSpec | main.py:485-583 | nothing goes out exactly when the capped balance is empty or the formatted quantity is under 1 base unit; the step raises exactly when a positive quantity meets a missing or zero step size; otherwise an order goes out on the requested side with at least 1 base unit: a limit order while the wait is under the maximum (starting or keeping the timer), a market order without limit orders or once the wait is over (clearing the timer); a placed order is tracked |
| MainRebalancer.ThresholdSpec | main.py:419-447 | inside the adjusted threshold no order is sent and the wait timer resets; every order respects the cooldown and sells exactly when the divergence is positive |
| MainRebalancer.ThresholdSends | main.py:419-519 | once the divergence is outside the adjusted threshold, the cooldown is over, no order is tracked after the periodic clean-up and a balance-capped quantity formats to at least 1 base unit, an order against the divergence is sent: a limit order at LimitPrice when limit orders are on and the wait is under the maximum, a market order otherwise; the cooldown restarts and only the new order is tracked |
| MainRebalancer.WithinThresholdNoOrder | main.py:367-422 | without the EMA trigger a whole step inside the adjusted threshold sends nothing and resets the wait timer |
| MainRebalancer.OrderSideAgainstDivergence | main.py:419-490 | every limit or market order of a step sells iff the divergence is positive, only at or past the adjusted threshold, and is at least 1 base unit |
| MainRebalancer.EmaOrderOnlySells | main.py:399-413 | the defensive EMA order of a step only sells, only from a long spot position and only when enabled |
| MainRebalancer.SpotRebalancer.constructor | main.py:28-75 | the configuration and sizes are stored; the state is the fresh one, initialised from the candles when trend use is on |
| MainRebalancer.SpotRebalancer.WarmUp | main.py:104-117 | the loop's EMAs are the SMA seeds smoothed over the last 50 closes |
| MainRebalancer.SpotRebalancer.InitializeEmas | main.py:91-122 | the new state is InitializeSpec of the old |
| MainRebalancer.SpotRebalancer.UpdateEmas | main.py:124-135 | the new state and the result are UpdateEmasSpec of the old state |
| MainRebalancer.SpotRebalancer.CleanupOldOrders | main.py:660-678 | the tracked ids become CleanupOrders of the old ones |
| MainRebalancer.SpotRebalancer.ExecuteEmaRebalance | main.py:232-275 | state and action are EmaRebalanceSpec of the old state |
| MainRebalancer.SpotRebalancer.PlaceSized | main.py:493-519 | state and action are PlacementSpec of the old state: a limit order while the wait runs, otherwise a market order that clears the wait; both track the placement and restart the cooldown |
| MainRebalancer.SpotRebalancer.PlaceRebalanceOrder | main.py:449-583 | state and action are OrderSpec of the old state |
| MainRebalancer.SpotRebalancer.Step | main.py:367-519 | state and action are StepSpec of the old state |
| MainRebalancer.SpotRebalancer.EmaPhase | main.py:399-418 | state and action are EmaPhaseSpec of the old state |
| MainRebalancer.SpotRebalancer.CheckThreshold | main.py:419-519 | state and action are ThresholdSpec of the old state |
| EmaStrategy.FormatQuantity | bot/core/strategy.py:231-243 | a zero step raises; otherwise the nearest step multiple when that reaches the minimum order size, the minimum otherwise; never below the minimum, and within half a step of a quantity already at the minimum |
| EmaStrategy.CalculatePnl | bot/core/strategy.py:1327-1332 | a long gains exactly when the exit is above the entry; any other position is booked as a short and gains exactly when the exit is below it; zero quantity or an unchanged price books 0 |
| EmaStrategy.LongShortPnlOpposite | bot/core/strategy.py:1327-1332 | a long and a short of the same size book opposite results |
| EmaStrategy.TrendFrom | bot/core/strategy.py:291-303 | a zero slow EMA raises; otherwise Uptrend iff fast > slow·(1 + t/100), Downtrend iff not that and fast < slow·(1 − t/100), Neutral otherwise |
| EmaStrategy.TrendByRatio | bot/core/strategy.py:291-303 | with a positive slow EMA and t ≥ 0 the classification depends on fast/slow alone: above 1 + t/100 up, below 1 − t/100 down, inside the band neutral |
| EmaStrategy.HasSufficientTrendStrength | bot/core/strategy.py:309-336 | false without both EMAs; a zero slow EMA raises; otherwise true iff \|1 − fast/slow\|·100 ≥ the threshold |
| EmaStrategy.StrengthAgreesWithTrend | bot/core/strategy.py:285-336 | with a positive slow EMA and t ≥ 0, an up or down trend always has sufficient strength, and insufficient strength always classifies as neutral |
| EmaStrategy.Tighten | bot/core/strategy.py:584-627 | the kept or new level, whichever is higher for a long and lower for a short |
| EmaStrategy.StopsOnlyTighten | bot/core/strategy.py:584-627 | for a long the conditional and hard stops only move up, for a short only down |
| EmaStrategy.StopExitOrder | bot/core/strategy.py:594-647 | the hard exit fires exactly when the hard level is reached; the conditional exit only at candle close, with the hard level not reached and the conditional one reached; a close without exit clears the touched flag |
| EmaStrategy.StopsStayPaired | bot/core/strategy.py:570-647 | a conditional level is only ever set together with a hard level, and manage_stops raises exactly when a position exists without a slow EMA |
| EmaStrategy.InitialEmasWithin | bot/core/strategy.py:254-269 | after a warm-up over closes within [lo, hi] both EMAs lie in [lo, hi] |
| EmaStrategy.TrendSpec | bot/core/strategy.py:285-307 | without both EMAs nothing changes; otherwise only the trend may change |
| EmaStrategy.UpdateEmasBetween | bot/core/strategy.py:271-283 | a new price moves each EMA towards itself and never past it |
| EmaStrategy.TpExitQuantity | bot/core/strategy.py:656-661 | the level's share of the original position, capped at \|position\| |
| EmaStrategy.FreeAllocations | bot/core/strategy.py:703-718 | no positive allocation total leaves both unchanged; otherwise both stay ≥ 0 |
| EmaStrategy.FreedProportionally | bot/core/strategy.py:703-718 | with allocations ≥ 0 and an exit value up to their total each shrinks by the same factor and the total drops by exactly the exit value |
| EmaStrategy.TpLevelReduces | bot/core/strategy.py:649-731 | a take-profit order sells a long and buys back a short, for at least the minimum quantity; only a filled order books P&L and releases allocation; allocations ≥ 0 stay ≥ 0 |
| EmaStrategy.FirstReady | bot/core/strategy.py:544-555 | a chosen level is one of the names, not yet hit, configured and reached |
| EmaStrategy.FirstReadyIsFirst | bot/core/strategy.py:544-555 | no level is chosen iff none is ready; a chosen level is the first ready one in order |
| EmaStrategy.TrendExitSpec | bot/core/strategy.py:557-568 | an exit event exactly for a long without an uptrend or a short without a downtrend |
| EmaStrategy.CheckExitsMarksOneLevel | bot/core/strategy.py:530-555 | a call marks at most one level hit, one not hit before, only in market mode with a position and entry price, and it is the first ready one of tp1, tp2, tp3 |
| EmaStrategy.Strategy.constructor | bot/core/strategy.py:30-89 | the configuration and sizes are stored; flat, nothing allocated or tracked, no EMAs, neutral, no stops |
| EmaStrategy.Strategy.CalculateInitialEmas | bot/core/strategy.py:254-269 | the new state is InitialEmasSpec of the old one: unchanged with too few closes, else both EMAs warmed up over the last 50 closes |
| EmaStrategy.Strategy.CalculateTrend | bot/core/strategy.py:285-307 | state and result are TrendSpec of the old state |
| EmaStrategy.Strategy.UpdateEmas | bot/core/strategy.py:271-283 | state and result are UpdateEmasSpec of the old state |
| EmaStrategy.Strategy.ManageStops | bot/core/strategy.py:570-647 | the stops and the event are StopsSpec of the old stops |
| EmaStrategy.Strategy.ExecuteTpLevel | bot/core/strategy.py:649-731 | state and outcome are TpLevelSpec of the old state |
| EmaStrategy.Strategy.CheckExits | bot/core/strategy.py:530-568 | state and report are CheckExitsSpec of the old state |
| EmaStrategy.Strategy.CancelOrder | bot/core/strategy.py:1274-1307 | the id leaves the tracked limit orders whatever the reply, and no other tracked order changes; the result is true exactly for a 110001 reply or no reply, when the order may have been filled |
| Formatting.Precision | bot/utils/formatting.py:4-21 | 0 for a step without a dot; otherwise shorter than the step string |
| Formatting.PrecisionOfDecimal | bot/utils/formatting.py:4-21 | the precision of "a.b…" is the number of characters between the first and the second dot |
| Formatting.DigitsRoundTrip | bot/utils/formatting.py:15 | reading back the decimal digits written for n gives n |
| Formatting.RenderPrecision | bot/utils/formatting.py:15-25 | a fixed-point rendering with p decimals has precision p |
| Formatting.RenderValue | bot/utils/formatting.py:15-25 | a fixed-point rendering of ±m with p decimals reads back as the decimal ±m·10^-p |
| Formatting.FormatQuantity | bot/utils/formatting.py:10-15 | a formatted quantity has exactly the requested number of decimals |
| Formatting.FormatQuantityRoundsDown | bot/utils/formatting.py:10-15 | a formatted quantity reads back at most the quantity and less than one unit of the last decimal below it |
| Formatting.FormatPrice | bot/utils/formatting.py:23-25 | a formatted price has exactly the requested number of decimals |
| Formatting.FormatPriceNearest | bot/utils/formatting.py:23-25 | a formatted price reads back within half a unit of the last decimal of the price |
| Ema.Alpha | bot/core/strategy.py:264-265 | the smoothing factor 2/(period + 1) of a period ≥ 1 lies in (0, 1] |
| Ema.EmaStep | bot/core/strategy.py:279-280 | one smoothing step with α in [0, 1] lands between the previous EMA and the price, and keeps a price equal to the EMA |
| Ema.EmaRunWithin | bot/core/strategy.py:267-269 | smoothing any run of closes within [lo, hi] from a seed within [lo, hi] stays within [lo, hi] |
| Ema.EmaRunAppend | bot/core/strategy.py:267-269 | feeding xs then ys is feeding ys from the EMA after xs |
| Ema.Tail | bot/core/strategy.py:260-261 | the slice closes[-n:]: the last min(n, \|closes\|) closes |
| Ema.WarmedEmaWithin | bot/core/strategy.py:254-269 | with at least `period` closes, all within [lo, hi], the warmed-up EMA lies within [lo, hi] |
| Common.RoundHalfEven | main.py:651 | the integer nearest x, an even one on a tie |
| Common.NearestStep | main.py:651-652 | round(qty/step)·step, within half a step of qty for a positive step |

## Left out

- Network and concurrency: the exchange client, the websocket manager, its thread and its reconnect back-off. Every gateway call is replaced by a parameter holding its answer.
- Clocks and sleeps: `time.time()` becomes an explicit `now` parameter. `time.sleep()` disappears. The chase deadline of `maker_then_escalate` becomes the sequence of answers for the attempts that start before it.
- Output: `print`, logging, `print_status`, `print_delta_status`, and `log_trade`, both its in-memory `self.trades.append` (bot/core/strategy.py:1336-1346) and its append to `trades.json`; the trade log is never read back by the modelled code.
- Floating point: prices and quantities are exact reals, so IEEE-754 rounding and representation error are not modelled. Python's `round()` is modelled as round-half-to-even on reals.
- Process setup: the command-line runners, YAML and dotenv loading, signal handlers, the polling loops, `setup_env.py` and the configuration and re-export modules.
- Configuration: each component takes its configuration already parsed into a datatype. A dictionary key that is missing gives the documented default.
- Order placement in the EMA strategy: `sync_position`, `sync_orders`, `manage_entry_orders`, `place_limit_order`, `update_limit_orders`, the take-profit limit-order flows, `execute_full_exit` and the delta gate. These are client round-trips. The stop and take-profit decisions are modelled as events instead: the full exit that `manage_stops` starts is returned, not performed. The position and entry price are only written by these left-out operations, so the model reads them but never changes them.
- EmaStrategy.FormatQuantity: the final `round(x, len(str(qty_step).split('.')[-1]))` at bot/core/strategy.py:242-243 depends on float-to-text conversion and is not modelled. The result is the exact step multiple, or the minimum.
- `format_price` of the EMA strategy, `get_status`, `calculate_current_pnl_pct` and `calculate_current_pnl_usdt`: these are reporting helpers outside the modelled core.
- EmaStrategy.Strategy.CancelOrder: on a 110001 reply the source also calls `sync_position` (bot/core/strategy.py:1289), which queries the exchange and may rewrite the position state. That call is not modelled; the method changes only `limitOrders`.
- EmaStrategy.TpLevelSpec: the minimum-quantity and dust re-checks after formatting (bot/core/strategy.py:667-668,673-675) can never fire, because a formatted quantity is at least the minimum. They are not modelled as separate branches. The exchange's answer to the take-profit order is the flag `accepted`. A client exception there, and the `sync_position` after a fill, are not modelled.
- EmaStrategy.Strategy: the quantity step and minimum order quantity are fixed at construction. Refreshing them through `get_instrument_info` is left out.
- EmaStrategy.Config: take-profit levels are keyed by the three names tp1, tp2 and tp3, in that order. Other level names are not modelled.
- EmaStrategy.ConfigOk: EMA periods are required to be at least 1. With a period of 0, `calculate_initial_emas` raises ZeroDivisionError at the SMA seed (bot/core/strategy.py:260-261), which `initialize` does not catch (bot/core/strategy.py:139-163), and `update_emas` would step with a smoothing factor of 2; neither is modelled.
- MainRebalancer.ConfigOk: EMA periods are required to be at least 1. With a period of 0, the SMA seed of `initialize_emas` raises ZeroDivisionError (main.py:106-107), which the method catches by turning trend use off (main.py:119-121), and `update_emas` would step with a smoothing factor of 2; neither is modelled.
- TrendBias.EmaTrendBias.constructor: periods must be at least 0. A period of 0 is modelled: `initialize` then raises ZeroDivisionError at the SMA seed, an outcome of `Initialize`. A negative period, which the source accepts (bot/core/trend_bias.py:19-26) and then slices from the end, is not modelled.
- TrendDetector.TrendDetector.constructor: periods and explicit windows must be at least 0. A period of 0 is modelled: `initialize` then raises ZeroDivisionError in `_seed_ema`, an outcome of `Initialize`. A negative window, or a negative period without a window, makes `deque(maxlen=…)` raise ValueError in the constructor (bot/indicators/trend_detector.py:41-42); a negative period with a positive window is accepted and then sliced from the end; neither is modelled.
- MainRebalancer.EmaDecisionSpec: the short branch at main.py:414-417 is not modelled. A triggered opportunity always has a positive spot position, so that branch cannot run.
- MainRebalancer.SpotRebalancer: the instrument sizes are read once, at construction, as in the source.
- PositionManager: position ids "pos_<n>" are modelled by the counter value n. `place_order`, `update_order_status`, `_check_order_execution` and `get_position_summary` are left out, because they depend on client calls and helper modules that are not part of this model.
- RiskManager: `get_performance_metrics`, including its Sharpe ratio (a square root of floats), and `generate_risk_report` are left out. `generate_risk_report` refers to keys and attributes that do not exist. The trading day of `record_trade` is a parameter, not a date string.
- TrendDetector: `compute_ema_variants` is a diagnostic that only combines the modelled series helpers, and it is left out.
- RecentFills: `update` only calls `_fetch_new_fills`, so FetchNewFills covers it. Record fields that cannot be parsed as floats are represented as rejected records.
- Formatting: a negative precision is excluded by the `nat` type. Python would format with a negative factor or raise.
- Integer widths: Python integers are unbounded, and the model's are too.
