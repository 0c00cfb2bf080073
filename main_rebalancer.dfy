// The older stand-alone spot rebalancer: it classifies the trend from two EMAs,
// widens its rebalance threshold when the divergence goes with the trend, may
// trim a long spot position defensively around the fast EMA, and otherwise
// sends a limit order (or, after waiting too long, a market order) that brings
// total delta back towards its target.
module MainRebalancer {
  import opened Common
  import opened Ema

  datatype Trend = Uptrend | Downtrend | Neutral

  /** The `ema_rebalance` settings. */
  datatype EmaRebalanceConfig = EmaRebalanceConfig(enabled: bool, minPositionUsdt: real, cooldownSeconds: real,
                                                   uptrendBreakoutPct: real, downtrendEmaTouchPct: real,
                                                   emaPartialRatio: real)

  datatype Config = Config(targetDeltaUsdt: real, rebalanceThresholdUsdt: real, maxWaitSeconds: int,
                           useLimitOrders: bool, cooldownSeconds: int, useTrend: bool, emaFastPeriod: int,
                           emaSlowPeriod: int, trendThresholdPct: real, trendMultiplier: real,
                           emaRebalance: EmaRebalanceConfig)

  /** Seconds between status reports, and between open-order clean-ups. */
  const STATUS_INTERVAL := 30.0
  const CLEANUP_INTERVAL := 60.0
  /** Orders of less than one base unit are not sent. */
  const MIN_ORDER_BASE := 1.0

  predicate ConfigOk(cfg: Config)
  {
    cfg.emaFastPeriod >= 1 && cfg.emaSlowPeriod >= 1
  }

  /** update_trend: the fast/slow ratio against 1 ± threshold; no EMAs, no trend. */
  function TrendOf(emaFast: Option<real>, emaSlow: Option<real>, thresholdPct: real): (r: Outcome<Trend>)
    ensures emaFast.None? || emaSlow.None? ==> r == Ok(Neutral)
    ensures emaFast.Some? && emaSlow.Some? ==> (r.ZeroDivision? <==> emaSlow.value == 0.0)
    ensures emaFast.Some? && emaSlow.Some? && emaSlow.value != 0.0 ==>
              var ratio := emaFast.value / emaSlow.value;
              var t := thresholdPct / 100.0;
              (r == Ok(Uptrend) <==> ratio > 1.0 + t) &&
              (r == Ok(Downtrend) <==> !(ratio > 1.0 + t) && ratio < 1.0 - t) &&
              (r == Ok(Neutral) <==> !(ratio > 1.0 + t) && !(ratio < 1.0 - t))
  {
    if emaFast.None? || emaSlow.None? then Ok(Neutral)
    else if emaSlow.value == 0.0 then ZeroDivision
    else
      var ratio := emaFast.value / emaSlow.value;
      var t := thresholdPct / 100.0;
      if ratio > 1.0 + t then Ok(Uptrend) else if ratio < 1.0 - t then Ok(Downtrend) else Ok(Neutral)
  }

  /** A divergence that goes with the trend: long exposure in an uptrend, short
      exposure in a downtrend. */
  predicate WithTrend(useTrend: bool, trend: Trend, divergence: real)
  {
    useTrend && ((divergence > 0.0 && trend == Uptrend) || (divergence < 0.0 && trend == Downtrend))
  }

  /** get_adjusted_threshold. */
  function AdjustedThreshold(useTrend: bool, trend: Trend, base: real, multiplier: real, divergence: real): (r: real)
    ensures WithTrend(useTrend, trend, divergence) ==> r == base * multiplier
    ensures !WithTrend(useTrend, trend, divergence) ==> r == base
  {
    if !useTrend || trend == Neutral then base
    else if divergence > 0.0 && trend == Uptrend then base * multiplier
    else if divergence < 0.0 && trend == Downtrend then base * multiplier
    else base
  }

  /** With a multiplier of at least one the trend only ever makes the
      rebalancer more tolerant, never less. */
  lemma AdjustedThresholdAtLeastBase(useTrend: bool, trend: Trend, base: real, multiplier: real, divergence: real)
    requires base >= 0.0 && multiplier >= 1.0
    ensures AdjustedThreshold(useTrend, trend, base, multiplier, divergence) >= base
  {
    assert base * multiplier - base == base * (multiplier - 1.0);
    MulNonneg(base, multiplier - 1.0);
  }

  /** How far the price sits above the fast EMA, in percent (0 for a non-positive EMA). */
  function PriceVsEmaPct(price: real, ema: real): real
  {
    if ema > 0.0 then (price - ema) / ema * 100.0 else 0.0
  }

  datatype OpportunityReason = NotEnabled | EmasNotInitialized | PositionTooSmall | CooldownActive
                             | LongInUptrend(pct: real) | LongInDowntrend(pct: real) | NoEmaTrigger

  datatype Opportunity = Opportunity(shouldRebalance: bool, reason: OpportunityReason, suggestedRatio: real)

  /** The gates before any EMA trigger is considered. */
  predicate OpportunityGatesOpen(cfg: EmaRebalanceConfig, useTrend: bool, emaFast: Option<real>,
                                 lastEmaRebalanceTime: real, positionUsdt: real, now: real)
  {
    cfg.enabled && emaFast.Some? && useTrend && Abs(positionUsdt) >= cfg.minPositionUsdt &&
    now - lastEmaRebalanceTime >= cfg.cooldownSeconds
  }

  /** check_ema_rebalance_opportunity. */
  function EmaOpportunity(cfg: EmaRebalanceConfig, useTrend: bool, emaFast: Option<real>, trend: Trend,
                          lastEmaRebalanceTime: real, price: real, positionUsdt: real, now: real): (r: Opportunity)
    // triggered exactly for a long position past the open gates, breaking out
    // above the fast EMA in an uptrend or back near it in a downtrend
    ensures r.shouldRebalance <==>
              OpportunityGatesOpen(cfg, useTrend, emaFast, lastEmaRebalanceTime, positionUsdt, now) &&
              positionUsdt > 0.0 &&
              ((trend == Uptrend && PriceVsEmaPct(price, emaFast.value) >= cfg.uptrendBreakoutPct) ||
               (trend == Downtrend && Abs(PriceVsEmaPct(price, emaFast.value)) <= cfg.downtrendEmaTouchPct))
    ensures r.suggestedRatio == if r.shouldRebalance then cfg.emaPartialRatio else 0.0
    ensures !cfg.enabled ==> r.reason == NotEnabled
  {
    if !cfg.enabled then Opportunity(false, NotEnabled, 0.0)
    else if emaFast.None? || !useTrend then Opportunity(false, EmasNotInitialized, 0.0)
    else if Abs(positionUsdt) < cfg.minPositionUsdt then Opportunity(false, PositionTooSmall, 0.0)
    else if now - lastEmaRebalanceTime < cfg.cooldownSeconds then Opportunity(false, CooldownActive, 0.0)
    else
      var isLong := positionUsdt > 0.0;
      var pct := PriceVsEmaPct(price, emaFast.value);
      if isLong && trend == Uptrend && pct >= cfg.uptrendBreakoutPct then
        Opportunity(true, LongInUptrend(pct), cfg.emaPartialRatio)
      else if isLong && trend == Downtrend && Abs(pct) <= cfg.downtrendEmaTouchPct then
        Opportunity(true, LongInDowntrend(pct), cfg.emaPartialRatio)
      else Opportunity(false, NoEmaTrigger, 0.0)
  }

  /** format_quantity of the rebalancer: nothing for a non-positive quantity,
      otherwise the nearest step multiple, raised to the minimum order size. */
  function FormatQuantity(qty: real, qtyStep: real, minOrderQty: real): (r: Outcome<real>)
    ensures qty <= 0.0 ==> r == Ok(0.0)
    ensures qty > 0.0 ==> (r.ZeroDivision? <==> qtyStep == 0.0)
    ensures qty > 0.0 && qtyStep != 0.0 ==> r == Ok(Max(NearestStep(qty, qtyStep), minOrderQty))
    ensures qty > 0.0 && qtyStep > 0.0 ==>
              r.value >= minOrderQty && (r.value == minOrderQty || Abs(qty - r.value) <= qtyStep / 2.0)
  {
    if qty <= 0.0 then Ok(0.0)
    else if qtyStep == 0.0 then ZeroDivision
    else
      var formatted := NearestStep(qty, qtyStep);
      Ok(if formatted < minOrderQty then minOrderQty else formatted)
  }

  /** The open-order query of cleanup_old_orders: the open ids, a rejection, or a raised error. */
  datatype OpenOrdersResponse = OpenOrders(ids: set<string>) | OpenOrdersRejected | OpenOrdersRaised

  /** cleanup_old_orders on the tracked ids. */
  function CleanupOrders(active: set<string>, resp: OpenOrdersResponse): (r: set<string>)
    // afterwards only ids the exchange still reports open are tracked, and all of them
    ensures resp.OpenOrders? ==> r <= resp.ids && r <= active &&
                                 forall id :: id in active && id in resp.ids ==> id in r
    ensures resp.OpenOrdersRejected? ==> r == active
    // an error clears the tracking so that it cannot block new orders
    ensures resp.OpenOrdersRaised? ==> r == {}
  {
    match resp
    case OpenOrders(ids) => active * ids
    case OpenOrdersRejected => active
    case OpenOrdersRaised => {}
  }

  /** The historical candles for initialize_emas: oldest first, or a rejected or failed request. */
  datatype KlineResponse = Klines(closes: seq<real>) | KlinesRejected | KlinesRaised

  /** The answer to an order request: accepted with an id, rejected, or raised. */
  datatype PlaceResponse = Placed(orderId: string) | PlaceRejected | PlaceRaised

  /** The instrument lookup: the sizes, a raised error (defaults 1 and 1), or a
      rejection that leaves the sizes unset. */
  datatype InstrumentLookup = Specs(qtyStep: real, minOrderQty: real) | LookupRaised | LookupRejected

  function InstrumentSizes(lookup: InstrumentLookup): (r: Option<(real, real)>)
    ensures lookup.Specs? ==> r == Some((lookup.qtyStep, lookup.minOrderQty))
    ensures lookup.LookupRaised? ==> r == Some((1.0, 1.0))
    ensures lookup.LookupRejected? ==> r.None?
  {
    match lookup
    case Specs(step, minQty) => Some((step, minQty))
    case LookupRaised => Some((1.0, 1.0))
    case LookupRejected => None
  }

  datatype RebalancerState = RebalancerState(useTrend: bool, emaFast: Option<real>, emaSlow: Option<real>, trend: Trend,
                                             lastEmaRebalanceTime: real, lastRebalanceTime: real,
                                             rebalanceWaitStart: Option<real>, lastStatusTime: real,
                                             activeOrders: set<string>, lastOrderCleanup: real)

  /** initialize_emas on the state. */
  function InitializeSpec(cfg: Config, st: RebalancerState, klines: KlineResponse): (r: RebalancerState)
    requires ConfigOk(cfg)
    ensures klines.KlinesRaised? ==> r == st.(useTrend := false)
    ensures klines.KlinesRejected? || (klines.Klines? && |klines.closes| < cfg.emaSlowPeriod) ==> r == st
    ensures klines.Klines? && |klines.closes| >= cfg.emaSlowPeriod ==>
              r.emaFast == Some(WarmedEma(klines.closes, cfg.emaFastPeriod)) &&
              r.emaSlow == Some(WarmedEma(klines.closes, cfg.emaSlowPeriod)) &&
              var t := TrendOf(r.emaFast, r.emaSlow, cfg.trendThresholdPct);
              // a failure while classifying switches trend awareness off
              (t.Ok? ==> r == st.(emaFast := r.emaFast, emaSlow := r.emaSlow, trend := t.value)) &&
              (t.ZeroDivision? ==> r == st.(emaFast := r.emaFast, emaSlow := r.emaSlow, useTrend := false))
  {
    match klines
    case KlinesRaised => st.(useTrend := false)
    case KlinesRejected => st
    case Klines(closes) =>
      if |closes| < cfg.emaSlowPeriod then st
      else
        var fast := Some(WarmedEma(closes, cfg.emaFastPeriod));
        var slow := Some(WarmedEma(closes, cfg.emaSlowPeriod));
        var t := TrendOf(fast, slow, cfg.trendThresholdPct);
        if t.Ok? then st.(emaFast := fast, emaSlow := slow, trend := t.value)
        else st.(emaFast := fast, emaSlow := slow, useTrend := false)
  }

  /** update_emas on a closed candle: the new state, and false when classifying raised. */
  function UpdateEmasSpec(cfg: Config, st: RebalancerState, price: real): (r: (RebalancerState, bool))
    requires ConfigOk(cfg)
    ensures !st.useTrend || st.emaFast.None? || st.emaSlow.None? ==> r == (st, true)
    ensures st.useTrend && st.emaFast.Some? && st.emaSlow.Some? ==>
              r.0.emaFast == Some(EmaStep(st.emaFast.value, price, Alpha(cfg.emaFastPeriod))) &&
              r.0.emaSlow == Some(EmaStep(st.emaSlow.value, price, Alpha(cfg.emaSlowPeriod))) &&
              (r.1 <==> r.0.emaSlow.value != 0.0) &&
              r.0 == st.(emaFast := r.0.emaFast, emaSlow := r.0.emaSlow,
                         trend := if r.1 then TrendOf(r.0.emaFast, r.0.emaSlow, cfg.trendThresholdPct).value else st.trend)
  {
    if !st.useTrend || st.emaFast.None? || st.emaSlow.None? then (st, true)
    else
      var fast := Some(EmaStep(st.emaFast.value, price, Alpha(cfg.emaFastPeriod)));
      var slow := Some(EmaStep(st.emaSlow.value, price, Alpha(cfg.emaSlowPeriod)));
      var t := TrendOf(fast, slow, cfg.trendThresholdPct);
      if t.Ok? then (st.(emaFast := fast, emaSlow := slow, trend := t.value), true)
      else (st.(emaFast := fast, emaSlow := slow), false)
  }

  /** What one step sends to the exchange: nothing, the defensive EMA market
      order, a limit order, a market order; or the step raised part-way. */
  datatype Action = NoOrder | EmaMarketOrder(side: Side, qtyBase: real) | LimitOrder(side: Side, price: real, qtyBase: real)
                  | MarketOrder(side: Side, qtyBase: real) | StepRaised

  /** execute_ema_rebalance at time `now`: sells are capped by the base balance,
      buys by the quote balance, and only an accepted order starts the cooldown. */
  function EmaRebalanceSpec(st: RebalancerState, side: Side, qtyUsdt: real, price: real, availableBase: real,
                            usdtBalance: real, placement: PlaceResponse, now: real): (r: (RebalancerState, Action))
    ensures price == 0.0 || (side == Sell && availableBase <= 0.0) ==> r == (st, NoOrder)
    // otherwise the market order always goes out
    ensures price != 0.0 && !(side == Sell && availableBase <= 0.0) ==> r.1.EmaMarketOrder?
    ensures r.1.EmaMarketOrder? ==> r.1.side == side && price != 0.0
    ensures r.1.EmaMarketOrder? && side == Sell ==>
              r.1.qtyBase == Min(qtyUsdt / price, availableBase) && r.1.qtyBase <= availableBase && r.1.qtyBase <= qtyUsdt / price
    ensures r.1.EmaMarketOrder? && side == Buy ==> r.1.qtyBase == Min(qtyUsdt, usdtBalance) / price
    ensures r.0 == if r.1.EmaMarketOrder? && placement.Placed? then st.(lastEmaRebalanceTime := now, lastRebalanceTime := now) else st
  {
    if price == 0.0 then (st, NoOrder)
    else if side == Sell && availableBase <= 0.0 then (st, NoOrder)
    else
      var qtyBase := if side == Sell then Min(qtyUsdt / price, availableBase) else Min(qtyUsdt, usdtBalance) / price;
      (if placement.Placed? then st.(lastEmaRebalanceTime := now, lastRebalanceTime := now) else st,
       EmaMarketOrder(side, qtyBase))
  }

  /** The limit price: just inside the market, rounded to four decimals. */
  function LimitPrice(side: Side, price: real): (r: real)
    ensures var p := if side == Buy then price * 0.999 else price * 1.001;
            Abs(r - p) <= 0.00005 && (r * 10000.0).Floor as real == r * 10000.0
  {
    var p := if side == Buy then price * 0.999 else price * 1.001;
    var k := RoundHalfEven(p * 10000.0);
    FourDecimals(p, k);
    k as real / 10000.0
  }

  /** A whole number of 10^-4 steps within half a step of p·10^4 is within
      half a unit of the fourth decimal of p, and has at most four decimals. */
  lemma FourDecimals(p: real, k: int)
    requires Abs(p * 10000.0 - k as real) <= 0.5
    ensures Abs(k as real / 10000.0 - p) <= 0.00005
    ensures (k as real / 10000.0 * 10000.0).Floor as real == k as real / 10000.0 * 10000.0
  {
    var x := k as real;
    assert x / 10000.0 * 10000.0 == x;
    assert x / 10000.0 - p == (x - p * 10000.0) / 10000.0;
  }

  /** An accepted order joins the tracked ids. */
  function Track(active: set<string>, placement: PlaceResponse): (r: set<string>)
    ensures placement.Placed? ==> r == active + {placement.orderId}
    ensures !placement.Placed? ==> r == active
  {
    if placement.Placed? then active + {placement.orderId} else active
  }

  /** The balance cap on the base quantity: a sell never exceeds the base
      balance, a buy never spends more than the quote balance; none at all when
      that balance is empty. */
  function CappedBase(side: Side, qtyUsdt: real, price: real, availableBase: real, usdtBalance: real): (r: Option<real>)
    requires price != 0.0
    ensures side == Sell ==> (r.None? <==> availableBase <= 0.0)
    ensures side == Buy ==> (r.None? <==> usdtBalance <= 0.0)
    ensures r.Some? && side == Sell ==> r.value == Min(qtyUsdt / price, availableBase)
    ensures r.Some? && side == Buy ==> r.value == Min(qtyUsdt, usdtBalance) / price
  {
    if side == Sell then (if availableBase <= 0.0 then None else Some(Min(qtyUsdt / price, availableBase)))
    else (if usdtBalance <= 0.0 then None else Some(Min(qtyUsdt, usdtBalance) / price))
  }

  /** The sizing and order placement at the end of step, once a rebalance is due. */
  function OrderSpec(cfg: Config, sizes: Option<(real, real)>, st: RebalancerState, side: Side, qtyUsdt: real,
                     price: real, availableBase: real, usdtBalance: real, placement: PlaceResponse, now: real): (r: (RebalancerState, Action))
    requires price != 0.0
    ensures r.1.LimitOrder? || r.1.MarketOrder? ==> r.1.side == side && r.1.qtyBase >= MIN_ORDER_BASE
    ensures r.1.NoOrder? || r.1.StepRaised? ==> r.0 == st
    ensures r.1.LimitOrder? ==> cfg.useLimitOrders && r.1.price == LimitPrice(side, price) &&
                                r.0 == st.(rebalanceWaitStart := Some(if st.rebalanceWaitStart.Some? then st.rebalanceWaitStart.value else now),
                                           lastRebalanceTime := now, activeOrders := Track(st.activeOrders, placement))
    ensures r.1.MarketOrder? ==> r.0 == st.(rebalanceWaitStart := None, lastRebalanceTime := now,
                                            activeOrders := Track(st.activeOrders, placement))
    // a market order goes out only without limit orders or once the wait has run out
    ensures r.1.MarketOrder? && cfg.useLimitOrders ==>
              now - (if st.rebalanceWaitStart.Some? then st.rebalanceWaitStart.value else now) >= cfg.maxWaitSeconds as real
    ensures r.1.LimitOrder? ==>
              now - (if st.rebalanceWaitStart.Some? then st.rebalanceWaitStart.value else now) < cfg.maxWaitSeconds as real
    // nothing goes out only for an empty balance or a quantity that formats below the minimum
    ensures r.1.NoOrder? <==>
              var c := CappedBase(side, qtyUsdt, price, availableBase, usdtBalance);
              c.None? || c.value <= 0.0 ||
              (sizes.Some? && sizes.value.0 != 0.0 && FormatQuantity(c.value, sizes.value.0, sizes.value.1).value < MIN_ORDER_BASE)
    // the step raises exactly when a positive quantity meets a missing or zero step size
    ensures r.1.StepRaised? <==>
              var c := CappedBase(side, qtyUsdt, price, availableBase, usdtBalance);
              c.Some? && c.value > 0.0 && (sizes.None? || sizes.value.0 == 0.0)
    ensures !(r.1.EmaMarketOrder?)
  {
    var capped := CappedBase(side, qtyUsdt, price, availableBase, usdtBalance);
    if capped.None? then (st, NoOrder)
    else
      var formatted := if capped.value <= 0.0 then Ok(0.0)
                       else if sizes.None? then ZeroDivision
                       else FormatQuantity(capped.value, sizes.value.0, sizes.value.1);
      if formatted.ZeroDivision? then (st, StepRaised)
      else if formatted.value < MIN_ORDER_BASE then (st, NoOrder)
      else PlacementSpec(cfg, st, side, formatted.value, price, placement, now)
  }

  /** Placing a sized order: a limit order while the rebalance wait runs,
      a market order without limit orders or once the wait is over. */
  function PlacementSpec(cfg: Config, st: RebalancerState, side: Side, qty: real, price: real,
                         placement: PlaceResponse, now: real): (RebalancerState, Action)
  {
    if cfg.useLimitOrders then
      var start := if st.rebalanceWaitStart.None? then now else st.rebalanceWaitStart.value;
      if now - start >= cfg.maxWaitSeconds as real then
        (st.(rebalanceWaitStart := None, lastRebalanceTime := now, activeOrders := Track(st.activeOrders, placement)),
         MarketOrder(side, qty))
      else
        (st.(rebalanceWaitStart := Some(start), lastRebalanceTime := now, activeOrders := Track(st.activeOrders, placement)),
         LimitOrder(side, LimitPrice(side, price), qty))
    else
      (st.(rebalanceWaitStart := None, lastRebalanceTime := now, activeOrders := Track(st.activeOrders, placement)),
       MarketOrder(side, qty))
  }

  /** The threshold part of step: within the threshold the wait timer resets;
      the cooldown and already-tracked orders hold back a new one. */
  function ThresholdSpec(cfg: Config, sizes: Option<(real, real)>, st: RebalancerState, divergence: real, adjusted: real,
                         price: real, openOrders: OpenOrdersResponse, availableBase: real, usdtBalance: real,
                         placement: PlaceResponse, now: real): (r: (RebalancerState, Action))
    ensures Abs(divergence) < adjusted ==> r == (st.(rebalanceWaitStart := None), NoOrder)
    ensures r.1.LimitOrder? || r.1.MarketOrder? ==>
              Abs(divergence) >= adjusted && now - st.lastRebalanceTime >= cfg.cooldownSeconds as real &&
              (r.1.side == Sell <==> divergence > 0.0) && r.1.qtyBase >= MIN_ORDER_BASE
    ensures !(r.1.EmaMarketOrder?)
  {
    if Abs(divergence) < adjusted then (st.(rebalanceWaitStart := None), NoOrder)
    else if now - st.lastRebalanceTime < cfg.cooldownSeconds as real then (st, NoOrder)
    else
      var s1 := if now - st.lastOrderCleanup > CLEANUP_INTERVAL
                then st.(activeOrders := CleanupOrders(st.activeOrders, openOrders), lastOrderCleanup := now)
                else st;
      if s1.activeOrders != {} then (s1, NoOrder)
      else
        var side := if divergence > 0.0 then Sell else Buy;
        if price == 0.0 then (s1, StepRaised)
        else OrderSpec(cfg, sizes, s1, side, Abs(divergence), price, availableBase, usdtBalance, placement, now)
  }

  /** Once every gate of the threshold part passes (outside the threshold, the
      cooldown over, no order still tracked after the periodic clean-up, a
      balance to trade and a formatted quantity of at least one base unit),
      an order goes out against the divergence: a limit order while the wait
      runs, a market order otherwise. */
  lemma ThresholdSends(cfg: Config, sizes: Option<(real, real)>, st: RebalancerState, divergence: real, adjusted: real,
                       price: real, openOrders: OpenOrdersResponse, availableBase: real, usdtBalance: real,
                       placement: PlaceResponse, now: real, q: real)
    requires Abs(divergence) >= adjusted
    requires now - st.lastRebalanceTime >= cfg.cooldownSeconds as real
    requires (if now - st.lastOrderCleanup > CLEANUP_INTERVAL then CleanupOrders(st.activeOrders, openOrders)
              else st.activeOrders) == {}
    requires price != 0.0
    requires sizes.Some? && sizes.value.0 != 0.0
    requires var c := CappedBase(if divergence > 0.0 then Sell else Buy, Abs(divergence), price, availableBase, usdtBalance);
             c.Some? && c.value > 0.0 && FormatQuantity(c.value, sizes.value.0, sizes.value.1) == Ok(q)
    requires q >= MIN_ORDER_BASE
    ensures var r := ThresholdSpec(cfg, sizes, st, divergence, adjusted, price, openOrders, availableBase, usdtBalance, placement, now);
            var side := if divergence > 0.0 then Sell else Buy;
            var wait := now - (if st.rebalanceWaitStart.Some? then st.rebalanceWaitStart.value else now);
            (cfg.useLimitOrders && wait < cfg.maxWaitSeconds as real ==> r.1 == LimitOrder(side, LimitPrice(side, price), q)) &&
            (!(cfg.useLimitOrders && wait < cfg.maxWaitSeconds as real) ==> r.1 == MarketOrder(side, q)) &&
            r.0.lastRebalanceTime == now && r.0.activeOrders == Track({}, placement)
  {
    var s1 := if now - st.lastOrderCleanup > CLEANUP_INTERVAL
              then st.(activeOrders := CleanupOrders(st.activeOrders, openOrders), lastOrderCleanup := now)
              else st;
    var side := if divergence > 0.0 then Sell else Buy;
    assert ThresholdSpec(cfg, sizes, st, divergence, adjusted, price, openOrders, availableBase, usdtBalance, placement, now)
        == OrderSpec(cfg, sizes, s1, side, Abs(divergence), price, availableBase, usdtBalance, placement, now);
    assert OrderSpec(cfg, sizes, s1, side, Abs(divergence), price, availableBase, usdtBalance, placement, now)
        == PlacementSpec(cfg, s1, side, q, price, placement, now);
  }

  /** What one step observes: the latest price, a just-closed candle, the two
      exposures, the two balances, the open-order query and the answer to an
      order it sends. */
  datatype StepInputs = StepInputs(price: Option<real>, closedCandle: Option<real>, spotUsdt: real, futuresUsdt: real,
                                   availableBase: real, usdtBalance: real, openOrders: OpenOrdersResponse,
                                   placement: PlaceResponse)

  function Divergence(cfg: Config, inp: StepInputs): real
  {
    inp.spotUsdt + inp.futuresUsdt - cfg.targetDeltaUsdt
  }

  /** step, after the candle update: the status clock, then the EMA
      opportunity before the threshold check. */
  function AfterEmasSpec(cfg: Config, sizes: Option<(real, real)>, st: RebalancerState, inp: StepInputs,
                         price: real, now: real): (r: (RebalancerState, Action))
  {
    var divergence := Divergence(cfg, inp);
    var adjusted := AdjustedThreshold(st.useTrend, st.trend, cfg.rebalanceThresholdUsdt, cfg.trendMultiplier, divergence);
    var s1 := if now - st.lastStatusTime >= STATUS_INTERVAL then st.(lastStatusTime := now) else st;
    EmaPhaseSpec(cfg, sizes, s1, inp, price, divergence, adjusted, now)
  }

  /** The EMA opportunity check of step, then the threshold check. */
  function EmaPhaseSpec(cfg: Config, sizes: Option<(real, real)>, st: RebalancerState, inp: StepInputs,
                        price: real, divergence: real, adjusted: real, now: real): (r: (RebalancerState, Action))
  {
    EmaDecisionSpec(cfg, sizes, st, inp, price, divergence, adjusted, now,
                    EmaOpportunity(cfg.emaRebalance, st.useTrend, st.emaFast, st.trend, st.lastEmaRebalanceTime,
                                   price, inp.spotUsdt, now))
  }

  /** The USDT value of spot the defensive sell moves out: the suggested
      fraction of the spot position. */
  function SellUsdt(spotUsdt: real, opportunity: Opportunity): real
  {
    spotUsdt * opportunity.suggestedRatio
  }

  /** Acting on the opportunity: a triggered one always has a long spot
      position, so the defensive order always sells. */
  function EmaDecisionSpec(cfg: Config, sizes: Option<(real, real)>, st: RebalancerState, inp: StepInputs,
                           price: real, divergence: real, adjusted: real, now: real, opportunity: Opportunity): (r: (RebalancerState, Action))
  {
    if cfg.emaRebalance.enabled && opportunity.shouldRebalance then
      EmaRebalanceSpec(st, Sell, SellUsdt(inp.spotUsdt, opportunity), price, inp.availableBase, inp.usdtBalance, inp.placement, now)
    else
      ThresholdSpec(cfg, sizes, st, divergence, adjusted, price, inp.openOrders, inp.availableBase, inp.usdtBalance, inp.placement, now)
  }

  /** step at time `now`. */
  function StepSpec(cfg: Config, sizes: Option<(real, real)>, st: RebalancerState, inp: StepInputs, now: real): (r: (RebalancerState, Action))
    requires ConfigOk(cfg)
  {
    if inp.price.None? then (st, NoOrder)
    else
      var u := if st.useTrend && inp.closedCandle.Some? then UpdateEmasSpec(cfg, st, inp.closedCandle.value) else (st, true);
      if !u.1 then (u.0, StepRaised)
      else AfterEmasSpec(cfg, sizes, u.0, inp, inp.price.value, now)
  }

  /** The adjusted threshold a step compares against. */
  function StepThreshold(cfg: Config, st: RebalancerState, inp: StepInputs): real
    requires ConfigOk(cfg)
  {
    var u := if st.useTrend && inp.closedCandle.Some? then UpdateEmasSpec(cfg, st, inp.closedCandle.value) else (st, true);
    AdjustedThreshold(u.0.useTrend, u.0.trend, cfg.rebalanceThresholdUsdt, cfg.trendMultiplier, Divergence(cfg, inp))
  }

  /** Without the EMA trigger, a divergence inside the adjusted threshold sends
      nothing and resets the wait timer. */
  lemma WithinThresholdNoOrder(cfg: Config, sizes: Option<(real, real)>, st: RebalancerState, inp: StepInputs, now: real)
    requires ConfigOk(cfg) && inp.price.Some? && !cfg.emaRebalance.enabled
    requires !(st.useTrend && inp.closedCandle.Some? && st.emaFast.Some? && st.emaSlow.Some?) ||
             EmaStep(st.emaSlow.value, inp.closedCandle.value, Alpha(cfg.emaSlowPeriod)) != 0.0
    requires Abs(Divergence(cfg, inp)) < StepThreshold(cfg, st, inp)
    ensures StepSpec(cfg, sizes, st, inp, now).1 == NoOrder
    ensures StepSpec(cfg, sizes, st, inp, now).0.rebalanceWaitStart == None
  {
  }

  /** A limit or market order always leans against the divergence: it sells
      exactly when total delta is above target, and only once the divergence
      reaches the adjusted threshold. */
  lemma OrderSideAgainstDivergence(cfg: Config, sizes: Option<(real, real)>, st: RebalancerState, inp: StepInputs, now: real)
    requires ConfigOk(cfg)
    ensures var a := StepSpec(cfg, sizes, st, inp, now).1;
            a.LimitOrder? || a.MarketOrder? ==>
              (a.side == Sell <==> Divergence(cfg, inp) > 0.0) &&
              Abs(Divergence(cfg, inp)) >= StepThreshold(cfg, st, inp) && a.qtyBase >= MIN_ORDER_BASE
  {
    if inp.price.Some? {
      var u := if st.useTrend && inp.closedCandle.Some? then UpdateEmasSpec(cfg, st, inp.closedCandle.value) else (st, true);
      if u.1 {
        var price := inp.price.value;
        var divergence := Divergence(cfg, inp);
        var adjusted := AdjustedThreshold(u.0.useTrend, u.0.trend, cfg.rebalanceThresholdUsdt, cfg.trendMultiplier, divergence);
        assert adjusted == StepThreshold(cfg, st, inp);
        var s1 := if now - u.0.lastStatusTime >= STATUS_INTERVAL then u.0.(lastStatusTime := now) else u.0;
        var opp := EmaOpportunity(cfg.emaRebalance, s1.useTrend, s1.emaFast, s1.trend, s1.lastEmaRebalanceTime,
                                  price, inp.spotUsdt, now);
        assert StepSpec(cfg, sizes, st, inp, now) == EmaDecisionSpec(cfg, sizes, s1, inp, price, divergence, adjusted, now, opp);
      }
    }
  }

  /** The defensive EMA order only ever trims a long spot position. */
  lemma EmaOrderOnlySells(cfg: Config, sizes: Option<(real, real)>, st: RebalancerState, inp: StepInputs, now: real)
    requires ConfigOk(cfg)
    ensures var a := StepSpec(cfg, sizes, st, inp, now).1;
            a.EmaMarketOrder? ==> a.side == Sell && inp.spotUsdt > 0.0 && cfg.emaRebalance.enabled
  {
  }

  class SpotRebalancer {
    const cfg: Config
    const sizes: Option<(real, real)>
    var useTrend: bool
    var emaFast: Option<real>
    var emaSlow: Option<real>
    var trend: Trend
    var lastEmaRebalanceTime: real
    var lastRebalanceTime: real
    var rebalanceWaitStart: Option<real>
    var lastStatusTime: real
    var activeOrders: set<string>
    var lastOrderCleanup: real

    function State(): RebalancerState
      reads this
    {
      RebalancerState(useTrend, emaFast, emaSlow, trend, lastEmaRebalanceTime, lastRebalanceTime,
                      rebalanceWaitStart, lastStatusTime, activeOrders, lastOrderCleanup)
    }

    /** The starting state: no EMAs, neutral, all clocks at zero, nothing tracked. */
    static function Fresh(cfg: Config): RebalancerState
    {
      RebalancerState(cfg.useTrend, None, None, Neutral, 0.0, 0.0, None, 0.0, {}, 0.0)
    }

    constructor (cfg: Config, klines: KlineResponse, lookup: InstrumentLookup)
      requires ConfigOk(cfg)
      ensures this.cfg == cfg && sizes == InstrumentSizes(lookup)
      ensures State() == if cfg.useTrend then InitializeSpec(cfg, Fresh(cfg), klines) else Fresh(cfg)
    {
      this.cfg := cfg;
      sizes := InstrumentSizes(lookup);
      useTrend := cfg.useTrend;
      emaFast := None;
      emaSlow := None;
      trend := Neutral;
      lastEmaRebalanceTime := 0.0;
      lastRebalanceTime := 0.0;
      rebalanceWaitStart := None;
      lastStatusTime := 0.0;
      activeOrders := {};
      lastOrderCleanup := 0.0;
      new;
      if cfg.useTrend {
        InitializeEmas(klines);
      }
    }

    /** The warm-up loop of initialize_emas: mean seeds, then the EMA over the latest closes. */
    method WarmUp(closes: seq<real>) returns (fast: real, slow: real)
      requires ConfigOk(cfg)
      ensures fast == WarmedEma(closes, cfg.emaFastPeriod) && slow == WarmedEma(closes, cfg.emaSlowPeriod)
    {
      fast := Sum(Tail(closes, cfg.emaFastPeriod)) / cfg.emaFastPeriod as real;
      slow := Sum(Tail(closes, cfg.emaSlowPeriod)) / cfg.emaSlowPeriod as real;
      var alphaFast := Alpha(cfg.emaFastPeriod);
      var alphaSlow := Alpha(cfg.emaSlowPeriod);
      ghost var seedFast := fast;
      ghost var seedSlow := slow;
      var recent := Tail(closes, WARMUP_CLOSES);
      var i := 0;
      while i < |recent|
        invariant 0 <= i <= |recent|
        invariant fast == EmaRun(seedFast, recent[..i], alphaFast)
        invariant slow == EmaRun(seedSlow, recent[..i], alphaSlow)
      {
        EmaRunPrefix(seedFast, recent, i, alphaFast);
        EmaRunPrefix(seedSlow, recent, i, alphaSlow);
        fast := EmaStep(fast, recent[i], alphaFast);
        slow := EmaStep(slow, recent[i], alphaSlow);
        i := i + 1;
      }
      PrefixAll(recent);
    }

    /** initialize_emas. */
    method InitializeEmas(klines: KlineResponse)
      requires ConfigOk(cfg)
      modifies this`useTrend, this`emaFast, this`emaSlow, this`trend
      ensures State() == InitializeSpec(cfg, old(State()), klines)
    {
      ghost var before := State();
      if klines.KlinesRaised? {
        useTrend := false;
        assert State() == before.(useTrend := false);
        return;
      }
      if klines.KlinesRejected? || |klines.closes| < cfg.emaSlowPeriod {
        return;
      }
      var fast, slow := WarmUp(klines.closes);
      assert State() == before;
      emaFast := Some(fast);
      emaSlow := Some(slow);
      var t := TrendOf(emaFast, emaSlow, cfg.trendThresholdPct);
      if t.Ok? {
        trend := t.value;
        assert State() == before.(emaFast := Some(fast), emaSlow := Some(slow), trend := t.value);
      } else {
        useTrend := false;
        assert State() == before.(emaFast := Some(fast), emaSlow := Some(slow), useTrend := false);
      }
    }

    /** update_emas; false when classifying the new EMAs raised. */
    method UpdateEmas(price: real) returns (ok: bool)
      requires ConfigOk(cfg)
      modifies this`emaFast, this`emaSlow, this`trend
      ensures (State(), ok) == UpdateEmasSpec(cfg, old(State()), price)
    {
      if !useTrend || emaFast.None? || emaSlow.None? {
        return true;
      }
      var alphaFast := Alpha(cfg.emaFastPeriod);
      var alphaSlow := Alpha(cfg.emaSlowPeriod);
      ghost var before := State();
      emaFast := Some(EmaStep(emaFast.value, price, alphaFast));
      emaSlow := Some(EmaStep(emaSlow.value, price, alphaSlow));
      assert State() == before.(emaFast := emaFast, emaSlow := emaSlow);
      var t := TrendOf(emaFast, emaSlow, cfg.trendThresholdPct);
      if t.ZeroDivision? {
        return false;
      }
      trend := t.value;
      ok := true;
    }

    /** cleanup_old_orders. */
    method CleanupOldOrders(resp: OpenOrdersResponse)
      modifies this`activeOrders
      ensures activeOrders == CleanupOrders(old(activeOrders), resp)
    {
      match resp {
        case OpenOrders(ids) =>
          activeOrders := activeOrders * ids;
        case OpenOrdersRejected =>
        case OpenOrdersRaised =>
          activeOrders := {};
      }
    }

    /** execute_ema_rebalance at time `now`. */
    method ExecuteEmaRebalance(side: Side, qtyUsdt: real, price: real, availableBase: real, usdtBalance: real,
                               placement: PlaceResponse, now: real) returns (action: Action)
      modifies this`lastEmaRebalanceTime, this`lastRebalanceTime
      ensures (State(), action) == EmaRebalanceSpec(old(State()), side, qtyUsdt, price, availableBase, usdtBalance, placement, now)
    {
      if price == 0.0 {
        return NoOrder;
      }
      var qtyBase := qtyUsdt / price;
      if side == Sell {
        if availableBase <= 0.0 {
          return NoOrder;
        }
        if qtyBase > availableBase {
          qtyBase := availableBase;
        }
      } else {
        var spend := Min(qtyUsdt, usdtBalance);
        qtyBase := spend / price;
      }
      action := EmaMarketOrder(side, qtyBase);
      if placement.Placed? {
        lastEmaRebalanceTime := now;
        lastRebalanceTime := now;
      }
    }

    /** The sizing and placement tail of step (place_limit_order / place_market_order). */
    method PlaceRebalanceOrder(side: Side, qtyUsdt: real, price: real, availableBase: real, usdtBalance: real,
                               placement: PlaceResponse, now: real) returns (action: Action)
      requires price != 0.0
      modifies this`rebalanceWaitStart, this`lastRebalanceTime, this`activeOrders
      ensures (State(), action) == OrderSpec(cfg, sizes, old(State()), side, qtyUsdt, price, availableBase, usdtBalance, placement, now)
    {
      var qtyBase := qtyUsdt / price;
      if side == Sell {
        if availableBase <= 0.0 {
          return NoOrder;
        }
        if qtyBase > availableBase {
          qtyBase := availableBase;
        }
      } else {
        if usdtBalance <= 0.0 {
          return NoOrder;
        }
        if qtyUsdt > usdtBalance {
          qtyBase := usdtBalance / price;
        }
      }
      assert qtyBase == CappedBase(side, qtyUsdt, price, availableBase, usdtBalance).value;
      if qtyBase > 0.0 {
        if sizes.None? {
          return StepRaised;
        }
        var formatted := FormatQuantity(qtyBase, sizes.value.0, sizes.value.1);
        if formatted.ZeroDivision? {
          return StepRaised;
        }
        qtyBase := formatted.value;
      } else {
        qtyBase := 0.0;
      }
      if qtyBase < MIN_ORDER_BASE {
        return NoOrder;
      }
      action := PlaceSized(side, qtyBase, price, placement, now);
    }

    /** place_limit_order / place_market_order for a sized quantity. */
    method PlaceSized(side: Side, qty: real, price: real, placement: PlaceResponse, now: real) returns (action: Action)
      modifies this`rebalanceWaitStart, this`lastRebalanceTime, this`activeOrders
      ensures (State(), action) == PlacementSpec(cfg, old(State()), side, qty, price, placement, now)
    {
      if cfg.useLimitOrders {
        if rebalanceWaitStart.None? {
          rebalanceWaitStart := Some(now);
        }
        var waited := now - rebalanceWaitStart.value;
        if waited < cfg.maxWaitSeconds as real {
          action := LimitOrder(side, LimitPrice(side, price), qty);
          activeOrders := Track(activeOrders, placement);
          lastRebalanceTime := now;
          return;
        }
      }
      action := MarketOrder(side, qty);
      activeOrders := Track(activeOrders, placement);
      lastRebalanceTime := now;
      rebalanceWaitStart := None;
    }

    /** step at time `now`, on what the exchange reports in `inp`. */
    method Step(inp: StepInputs, now: real) returns (action: Action)
      requires ConfigOk(cfg)
      modifies this
      ensures (State(), action) == StepSpec(cfg, sizes, old(State()), inp, now)
    {
      if inp.price.None? {
        return NoOrder;
      }
      var price := inp.price.value;
      if useTrend && inp.closedCandle.Some? {
        var ok := UpdateEmas(inp.closedCandle.value);
        if !ok {
          return StepRaised;
        }
      }
      ghost var s0 := State();
      assert StepSpec(cfg, sizes, old(State()), inp, now) == AfterEmasSpec(cfg, sizes, s0, inp, price, now);
      var divergence := inp.spotUsdt + inp.futuresUsdt - cfg.targetDeltaUsdt;
      var adjusted := AdjustedThreshold(useTrend, trend, cfg.rebalanceThresholdUsdt, cfg.trendMultiplier, divergence);
      if now - lastStatusTime >= STATUS_INTERVAL {
        lastStatusTime := now;
      }
      ghost var s1 := State();
      assert s1 == if now - s0.lastStatusTime >= STATUS_INTERVAL then s0.(lastStatusTime := now) else s0;
      assert AfterEmasSpec(cfg, sizes, s0, inp, price, now) == EmaPhaseSpec(cfg, sizes, s1, inp, price, divergence, adjusted, now);
      action := EmaPhase(divergence, adjusted, price, inp, now);
    }

    /** The EMA opportunity check of step, then the threshold check. */
    method EmaPhase(divergence: real, adjusted: real, price: real, inp: StepInputs, now: real) returns (action: Action)
      modifies this`rebalanceWaitStart, this`lastRebalanceTime, this`activeOrders, this`lastOrderCleanup,
               this`lastEmaRebalanceTime
      ensures (State(), action) == EmaPhaseSpec(cfg, sizes, old(State()), inp, price, divergence, adjusted, now)
    {
      if cfg.emaRebalance.enabled {
        var opportunity := EmaOpportunity(cfg.emaRebalance, useTrend, emaFast, trend, lastEmaRebalanceTime,
                                          price, inp.spotUsdt, now);
        if opportunity.shouldRebalance {
          action := ExecuteEmaRebalance(Sell, SellUsdt(inp.spotUsdt, opportunity), price,
                                        inp.availableBase, inp.usdtBalance, inp.placement, now);
          return;
        }
      }
      action := CheckThreshold(divergence, adjusted, price, inp, now);
    }

    /** The threshold part of step. */
    method CheckThreshold(divergence: real, adjusted: real, price: real, inp: StepInputs, now: real) returns (action: Action)
      modifies this`rebalanceWaitStart, this`lastRebalanceTime, this`activeOrders, this`lastOrderCleanup
      ensures (State(), action) == ThresholdSpec(cfg, sizes, old(State()), divergence, adjusted, price, inp.openOrders,
                                                 inp.availableBase, inp.usdtBalance, inp.placement, now)
    {
      if Abs(divergence) < adjusted {
        rebalanceWaitStart := None;
        return NoOrder;
      }
      if now - lastRebalanceTime < cfg.cooldownSeconds as real {
        return NoOrder;
      }
      if now - lastOrderCleanup > CLEANUP_INTERVAL {
        CleanupOldOrders(inp.openOrders);
        lastOrderCleanup := now;
      }
      if activeOrders != {} {
        return NoOrder;
      }
      var side := if divergence > 0.0 then Sell else Buy;
      var qtyUsdt := if divergence > 0.0 then divergence else Abs(divergence);
      if price == 0.0 {
        return StepRaised;
      }
      action := PlaceRebalanceOrder(side, qtyUsdt, price, inp.availableBase, inp.usdtBalance, inp.placement, now);
    }
  }
}
