// The EMA strategy's own arithmetic and state ratchets: the quantity rounding
// to the instrument step, the EMA warm-up and trend classification, the
// two-tier stop (a conditional stop acted on at candle close and a hard stop
// acted on at once) that only ever tightens, the take-profit ladder with its
// release of the per-EMA allocations, and the bookkeeping of order cancels.
module EmaStrategy {
  import opened Common
  import opened Ema

  /** The trend label of the strategy: "UPTREND", "DOWNTREND" or "NEUTRAL". */
  datatype Trend = Uptrend | Downtrend | Neutral

  /** The take-profit levels "tp1", "tp2" and "tp3", in the order they are tried. */
  datatype TpName = Tp1 | Tp2 | Tp3
  const TP_ORDER: seq<TpName> := [Tp1, Tp2, Tp3]

  /** One take-profit level: the gain in percent that triggers it and the
      percentage of the original position it exits. */
  datatype TpConfig = TpConfig(pct: real, exitPct: real)

  /** The configuration the strategy reads; a level missing from
      `takeProfitLevels` is one the configuration leaves out or leaves empty. */
  datatype Config = Config(emaFastPeriod: int, emaSlowPeriod: int, trendThresholdPct: real,
                           takeProfitLevels: map<TpName, TpConfig>, tpMarket: bool,
                           stopLossPct: real, hardStopLossPct: real)


  /** Positions smaller than this are treated as flat by the take-profit exit. */
  const DUST: real := 0.001

  /** The exchange's answer to a cancel of an order that is already filled or cancelled. */
  const ALREADY_GONE: int := 110001

  predicate ConfigOk(cfg: Config)
  {
    cfg.emaFastPeriod >= 1 && cfg.emaSlowPeriod >= 1
  }

  /** format_quantity: the nearest multiple of the step, raised to the minimum
      order quantity (a zero step raises ZeroDivisionError). */
  function FormatQuantity(qty: real, qtyStep: real, minOrderQty: real): (r: Outcome<real>)
    ensures r.ZeroDivision? <==> qtyStep == 0.0
    ensures r.Ok? ==> r.value >= minOrderQty
    ensures r.Ok? && NearestStep(qty, qtyStep) >= minOrderQty ==> r.value == NearestStep(qty, qtyStep)
    ensures r.Ok? && NearestStep(qty, qtyStep) < minOrderQty ==> r.value == minOrderQty
    // a quantity already at the minimum moves by at most half a step
    ensures r.Ok? && qtyStep > 0.0 && qty >= minOrderQty ==> Abs(qty - r.value) <= qtyStep / 2.0
  {
    if qtyStep == 0.0 then ZeroDivision
    else
      var formatted := NearestStep(qty, qtyStep);
      Ok(if formatted < minOrderQty then minOrderQty else formatted)
  }

  /** calculate_pnl: a long gains when the exit is above the entry, anything
      else is booked as a short, which gains when the exit is below the entry. */
  function CalculatePnl(position: real, entry: real, exit: real, qty: real): (r: real)
    ensures qty > 0.0 && position > 0.0 ==> (r > 0.0 <==> exit > entry) && (r < 0.0 <==> exit < entry)
    ensures qty > 0.0 && position <= 0.0 ==> (r > 0.0 <==> exit < entry) && (r < 0.0 <==> exit > entry)
    ensures qty == 0.0 || exit == entry ==> r == 0.0
  {
    if position > 0.0 then (exit - entry) * qty else (entry - exit) * qty
  }

  /** A long and a short of the same size book opposite results. */
  lemma LongShortPnlOpposite(entry: real, exit: real, qty: real)
    ensures CalculatePnl(1.0, entry, exit, qty) == -CalculatePnl(-1.0, entry, exit, qty)
  {
  }

  /** The trend bands of calculate_trend. */
  function UpperBand(slow: real, thresholdPct: real): real { slow * (1.0 + thresholdPct / 100.0) }
  function LowerBand(slow: real, thresholdPct: real): real { slow * (1.0 - thresholdPct / 100.0) }

  /** calculate_trend on two EMAs: the ratio fast/slow is computed first (so a
      zero slow EMA raises), then fast above the upper band is an uptrend and
      fast below the lower band a downtrend. */
  function TrendFrom(fast: real, slow: real, thresholdPct: real): (r: Outcome<Trend>)
    ensures r.ZeroDivision? <==> slow == 0.0
    ensures r.Ok? ==> (r.value == Uptrend <==> fast > UpperBand(slow, thresholdPct))
    ensures r.Ok? ==> (r.value == Downtrend <==>
                         !(fast > UpperBand(slow, thresholdPct)) && fast < LowerBand(slow, thresholdPct))
  {
    if slow == 0.0 then ZeroDivision
    else if fast > UpperBand(slow, thresholdPct) then Ok(Uptrend)
    else if fast < LowerBand(slow, thresholdPct) then Ok(Downtrend)
    else Ok(Neutral)
  }

  /** With a positive slow EMA and a non-negative threshold the bands do not
      overlap: the trend is decided by the ratio fast/slow alone, a downtrend
      exactly when it falls below 1 − t/100, and neutral inside the band. */
  lemma TrendByRatio(fast: real, slow: real, thresholdPct: real)
    requires slow > 0.0 && thresholdPct >= 0.0
    ensures TrendFrom(fast, slow, thresholdPct).Ok?
    ensures TrendFrom(fast, slow, thresholdPct).value == Uptrend <==> fast / slow > 1.0 + thresholdPct / 100.0
    ensures TrendFrom(fast, slow, thresholdPct).value == Downtrend <==> fast / slow < 1.0 - thresholdPct / 100.0
    ensures TrendFrom(fast, slow, thresholdPct).value == Neutral <==>
              1.0 - thresholdPct / 100.0 <= fast / slow <= 1.0 + thresholdPct / 100.0
  {
    var u := 1.0 + thresholdPct / 100.0;
    var l := 1.0 - thresholdPct / 100.0;
    RatioAbove(fast, slow, u);
    RatioBelow(fast, slow, l);
  }

  lemma RatioAbove(fast: real, slow: real, u: real)
    requires slow > 0.0
    ensures fast > slow * u <==> fast / slow > u
  {
    assert fast == slow * (fast / slow);
    if fast / slow > u {
      assert slow * (fast / slow - u) > 0.0;
    }
    if fast > slow * u {
      assert (fast - slow * u) / slow > 0.0;
      assert (fast - slow * u) / slow == fast / slow - u;
    }
  }

  lemma RatioBelow(fast: real, slow: real, l: real)
    requires slow > 0.0
    ensures fast < slow * l <==> fast / slow < l
  {
    RatioAbove(-fast, slow, -l);
    assert -fast / slow == -(fast / slow);
  }

  /** _has_sufficient_trend_strength: false without both EMAs, otherwise whether
      the EMAs are at least the threshold percentage apart (a zero slow EMA raises). */
  function HasSufficientTrendStrength(emaFast: Option<real>, emaSlow: Option<real>, thresholdPct: real): (r: Outcome<bool>)
    ensures emaFast.None? || emaSlow.None? ==> r == Ok(false)
    ensures r.ZeroDivision? <==> emaFast.Some? && emaSlow.Some? && emaSlow.value == 0.0
    ensures r.Ok? && emaFast.Some? && emaSlow.Some? ==>
              (r.value <==> Abs(1.0 - emaFast.value / emaSlow.value) * 100.0 >= thresholdPct)
  {
    if emaFast.None? || emaSlow.None? then Ok(false)
    else if emaSlow.value == 0.0 then ZeroDivision
    else Ok(!(Abs(1.0 - emaFast.value / emaSlow.value) * 100.0 < thresholdPct))
  }

  /** A trend strong enough to be an uptrend or a downtrend is always strong
      enough to trade on; too weak a separation is always classified neutral. */
  lemma StrengthAgreesWithTrend(fast: real, slow: real, thresholdPct: real)
    requires slow > 0.0 && thresholdPct >= 0.0
    ensures TrendFrom(fast, slow, thresholdPct) != Ok(Neutral) ==>
              HasSufficientTrendStrength(Some(fast), Some(slow), thresholdPct) == Ok(true)
    ensures HasSufficientTrendStrength(Some(fast), Some(slow), thresholdPct) == Ok(false) ==>
              TrendFrom(fast, slow, thresholdPct) == Ok(Neutral)
  {
    TrendByRatio(fast, slow, thresholdPct);
  }

  /** The two-tier stop: the conditional (trailing) level, the hard level, and
      whether the conditional level was touched during the current candle. */
  datatype Stops = Stops(trailing: Option<real>, hard: Option<real>, triggered: bool)

  /** A trailing level is only ever set together with a hard level. */
  predicate StopsOk(s: Stops)
  {
    s.trailing.Some? ==> s.hard.Some?
  }

  /** What manage_stops did: nothing, a full exit at the hard or at the
      conditional stop, or a raised TypeError (a missing slow EMA or hard level). */
  datatype StopEvent = NoStop | HardStopExit | ConditionalStopExit | StopsRaised

  /** The stop level `pct` percent below (long) or above (short) the slow EMA. */
  function StopLevel(slow: real, pct: real, long: bool): real
  {
    if long then slow * (1.0 - pct / 100.0) else slow * (1.0 + pct / 100.0)
  }

  /** Whether `price` has reached a stop `level`: at or below it for a long, at or above for a short. */
  predicate Breached(price: real, level: real, long: bool)
  {
    if long then price <= level else price >= level
  }

  /** A stop level kept or tightened towards `level`: up for a long, down for a short. */
  function Tighten(current: real, level: real, long: bool): (r: real)
    ensures long ==> r >= current && r >= level && (r == current || r == level)
    ensures !long ==> r <= current && r <= level && (r == current || r == level)
  {
    if long then (if level > current then level else current)
    else (if level < current then level else current)
  }

  /** The checks of manage_stops once both levels are set: the hard stop first,
      then the conditional stop, which is only acted on at candle close. */
  function CheckStops(s: Stops, price: real, long: bool, isNewCandle: bool): (r: (Stops, StopEvent))
    requires s.trailing.Some? && s.hard.Some?
  {
    if Breached(price, s.hard.value, long) then (s, HardStopExit)
    else
      var touched := Breached(price, s.trailing.value, long);
      var s1 := if touched then s.(triggered := true) else s;
      if isNewCandle && touched then (s1, ConditionalStopExit)
      else if isNewCandle then (s1.(triggered := false), NoStop)
      else (s1, NoStop)
  }

  /** manage_stops on the stop state. */
  function StopsSpec(cfg: Config, position: real, avgEntryPrice: real, emaSlow: Option<real>, s: Stops,
                     price: real, isNewCandle: bool): (r: (Stops, StopEvent))
  {
    if position == 0.0 || avgEntryPrice == 0.0 then (s, NoStop)
    else if emaSlow.None? then (s, StopsRaised)
    else
      var long := position > 0.0;
      var conditional := StopLevel(emaSlow.value, cfg.stopLossPct, long);
      var hard := StopLevel(emaSlow.value, cfg.hardStopLossPct, long);
      if s.trailing.None? then
        CheckStops(s.(trailing := Some(conditional), hard := Some(hard)), price, long, isNewCandle)
      else
        var s1 := s.(trailing := Some(Tighten(s.trailing.value, conditional, long)));
        // comparing with a missing hard level raises after the trailing level moved
        if s.hard.None? then (s1, StopsRaised)
        else CheckStops(s1.(hard := Some(Tighten(s.hard.value, hard, long))), price, long, isNewCandle)
  }

  /** For a long the stops only move up, for a short only down. */
  lemma StopsOnlyTighten(cfg: Config, position: real, avgEntryPrice: real, emaSlow: Option<real>, s: Stops,
                         price: real, isNewCandle: bool)
    requires s.trailing.Some? && s.hard.Some?
    ensures var r := StopsSpec(cfg, position, avgEntryPrice, emaSlow, s, price, isNewCandle).0;
            r.trailing.Some? && r.hard.Some? &&
            (position > 0.0 ==> r.trailing.value >= s.trailing.value && r.hard.value >= s.hard.value) &&
            (position < 0.0 ==> r.trailing.value <= s.trailing.value && r.hard.value <= s.hard.value)
  {
  }

  /** The exit decision of manage_stops: a hard-stop exit exactly when the hard
      level is reached; a conditional exit only at candle close, with the hard
      level not reached and the conditional level reached; no exit at candle
      close leaves the touched flag cleared. */
  lemma StopExitOrder(cfg: Config, position: real, avgEntryPrice: real, emaSlow: Option<real>, s: Stops,
                      price: real, isNewCandle: bool)
    requires StopsOk(s)
    requires position != 0.0 && avgEntryPrice != 0.0 && emaSlow.Some?
    ensures var r := StopsSpec(cfg, position, avgEntryPrice, emaSlow, s, price, isNewCandle);
            var long := position > 0.0;
            r.1 != StopsRaised && r.0.trailing.Some? && r.0.hard.Some? &&
            (r.1 == HardStopExit <==> Breached(price, r.0.hard.value, long)) &&
            (r.1 == ConditionalStopExit <==>
               isNewCandle && !Breached(price, r.0.hard.value, long) && Breached(price, r.0.trailing.value, long)) &&
            (r.1 == NoStop && isNewCandle ==> !r.0.triggered)
  {
  }

  /** manage_stops keeps every trailing level paired with a hard level, and
      raises only when a position exists and there is no slow EMA. */
  lemma StopsStayPaired(cfg: Config, position: real, avgEntryPrice: real, emaSlow: Option<real>, s: Stops,
                        price: real, isNewCandle: bool)
    requires StopsOk(s)
    ensures var r := StopsSpec(cfg, position, avgEntryPrice, emaSlow, s, price, isNewCandle);
            StopsOk(r.0) &&
            (r.1 == StopsRaised <==> position != 0.0 && avgEntryPrice != 0.0 && emaSlow.None?)
  {
  }

  /** The order the strategy placed at an EMA: which EMA, its price and quantity. */
  datatype EmaTag = Ema9 | Ema21
  datatype LimitOrderInfo = LimitOrderInfo(ema: EmaTag, price: real, qty: real)

  datatype StrategyState = StrategyState(position: real, avgEntryPrice: real, originalPositionSize: real,
                                         ema9PositionValue: real, ema21PositionValue: real,
                                         limitOrders: map<string, LimitOrderInfo>, tpLevelsHit: set<TpName>,
                                         emaFast: Option<real>, emaSlow: Option<real>, trend: Trend,
                                         stops: Stops, realizedPnl: real)

  /** calculate_initial_emas: nothing with fewer closes than the slow period,
      otherwise both EMAs warmed up from the closes. */
  function InitialEmasSpec(cfg: Config, st: StrategyState, closes: seq<real>): (r: StrategyState)
    requires ConfigOk(cfg)
  {
    if |closes| < cfg.emaSlowPeriod then st
    else st.(emaFast := Some(WarmedEma(closes, cfg.emaFastPeriod)), emaSlow := Some(WarmedEma(closes, cfg.emaSlowPeriod)))
  }

  /** After a warm-up over closes within [lo, hi] both EMAs lie within [lo, hi]. */
  lemma InitialEmasWithin(cfg: Config, st: StrategyState, closes: seq<real>, lo: real, hi: real)
    requires ConfigOk(cfg) && cfg.emaFastPeriod <= cfg.emaSlowPeriod && AllWithin(closes, lo, hi)
    ensures var r := InitialEmasSpec(cfg, st, closes);
            |closes| >= cfg.emaSlowPeriod ==> lo <= r.emaFast.value <= hi && lo <= r.emaSlow.value <= hi
  {
    if |closes| >= cfg.emaSlowPeriod {
      WarmedEmaWithin(closes, cfg.emaFastPeriod, lo, hi);
      WarmedEmaWithin(closes, cfg.emaSlowPeriod, lo, hi);
    }
  }

  /** calculate_trend on the state: nothing without both EMAs; false (trend
      unchanged) when the division by the slow EMA raises. */
  function TrendSpec(cfg: Config, st: StrategyState): (r: (StrategyState, bool))
    ensures st.emaFast.None? || st.emaSlow.None? ==> r == (st, true)
    ensures r.0 == st || r.0 == st.(trend := r.0.trend)
  {
    if st.emaFast.None? || st.emaSlow.None? then (st, true)
    else
      var t := TrendFrom(st.emaFast.value, st.emaSlow.value, cfg.trendThresholdPct);
      if t.ZeroDivision? then (st, false) else (st.(trend := t.value), true)
  }

  /** update_emas: nothing without both EMAs, otherwise one EMA step on each and
      then calculate_trend. */
  function UpdateEmasSpec(cfg: Config, st: StrategyState, price: real): (r: (StrategyState, bool))
    requires ConfigOk(cfg)
  {
    if st.emaFast.None? || st.emaSlow.None? then (st, true)
    else
      TrendSpec(cfg, st.(emaFast := Some(EmaStep(st.emaFast.value, price, Alpha(cfg.emaFastPeriod))),
                         emaSlow := Some(EmaStep(st.emaSlow.value, price, Alpha(cfg.emaSlowPeriod)))))
  }

  /** A new price moves each EMA towards it and never past it. */
  lemma UpdateEmasBetween(cfg: Config, st: StrategyState, price: real)
    requires ConfigOk(cfg) && st.emaFast.Some? && st.emaSlow.Some?
    ensures var r := UpdateEmasSpec(cfg, st, price).0;
            Min(st.emaFast.value, price) <= r.emaFast.value <= Max(st.emaFast.value, price) &&
            Min(st.emaSlow.value, price) <= r.emaSlow.value <= Max(st.emaSlow.value, price)
  {
  }

  /** The take-profit exit size before formatting: the level's share of the
      original position, but never more than the current position. */
  function TpExitQuantity(originalPositionSize: real, exitPct: real, position: real): (q: real)
    ensures q <= Abs(position)
    ensures originalPositionSize * (exitPct / 100.0) <= Abs(position) ==> q == originalPositionSize * (exitPct / 100.0)
    ensures originalPositionSize * (exitPct / 100.0) > Abs(position) ==> q == Abs(position)
  {
    var q := originalPositionSize * (exitPct / 100.0);
    if q > Abs(position) then Abs(position) else q
  }

  /** The release of EMA allocations after a take-profit fill: each EMA gives up
      its share of the exit value, floored at zero; nothing moves without a
      positive total. */
  function FreeAllocations(ema9Value: real, ema21Value: real, exitValue: real): (r: (real, real))
    ensures ema9Value + ema21Value <= 0.0 ==> r == (ema9Value, ema21Value)
    ensures ema9Value + ema21Value > 0.0 ==> r.0 >= 0.0 && r.1 >= 0.0
  {
    var total := ema9Value + ema21Value;
    if total > 0.0 then
      (Max(0.0, ema9Value - exitValue * (ema9Value / total)), Max(0.0, ema21Value - exitValue * (ema21Value / total)))
    else (ema9Value, ema21Value)
  }

  /** With non-negative allocations and an exit value up to their total, each
      allocation shrinks by the same factor and the total drops by exactly the
      exit value. */
  lemma FreedProportionally(ema9Value: real, ema21Value: real, exitValue: real)
    requires ema9Value >= 0.0 && ema21Value >= 0.0 && ema9Value + ema21Value > 0.0
    requires 0.0 <= exitValue <= ema9Value + ema21Value
    ensures var total := ema9Value + ema21Value;
            var r := FreeAllocations(ema9Value, ema21Value, exitValue);
            r.0 == ema9Value * (1.0 - exitValue / total) && r.1 == ema21Value * (1.0 - exitValue / total) &&
            r.0 + r.1 == total - exitValue
  {
    var total := ema9Value + ema21Value;
    var keep := 1.0 - exitValue / total;
    assert 0.0 <= exitValue / total <= 1.0 by { DivWithin(exitValue, total, 0.0, 1.0); }
    assert ema9Value - exitValue * (ema9Value / total) == ema9Value * keep;
    assert ema21Value - exitValue * (ema21Value / total) == ema21Value * keep;
    MulNonneg(ema9Value, keep);
    MulNonneg(ema21Value, keep);
    assert ema9Value * keep + ema21Value * keep == total * keep;
    assert total * keep == total - exitValue;
  }

  /** What execute_tp_level did: nothing, raised (a zero quantity step), or
      placed a reduce-only market order that the exchange filled or not. */
  datatype TpOutcome = TpSkipped | TpRaised | TpPlaced(side: Side, qty: real, filled: bool)

  /** execute_tp_level for one level; `accepted` is whether the exchange took
      the market order (a reply with retCode 0). */
  function TpLevelSpec(st: StrategyState, qtyStep: real, minOrderQty: real, price: real, level: TpConfig,
                       accepted: bool): (r: (StrategyState, TpOutcome))
  {
    if Abs(st.position) < DUST || st.originalPositionSize == 0.0 then (st, TpSkipped)
    else
      var formatted := FormatQuantity(TpExitQuantity(st.originalPositionSize, level.exitPct, st.position),
                                      qtyStep, minOrderQty);
      if formatted.ZeroDivision? then (st, TpRaised)
      else
        var qty := formatted.value;
        var side := if st.position > 0.0 then Sell else Buy;
        if !accepted then (st, TpPlaced(side, qty, false))
        else (TpFill(st, price, qty), TpPlaced(side, qty, true))
  }

  /** A filled take-profit order of `qty` at `price`: its P&L is booked and the
      EMA allocations give up the entry value of the exit. */
  function TpFill(st: StrategyState, price: real, qty: real): StrategyState
  {
    var freed := FreeAllocations(st.ema9PositionValue, st.ema21PositionValue, qty * st.avgEntryPrice);
    st.(realizedPnl := st.realizedPnl + CalculatePnl(st.position, st.avgEntryPrice, price, qty),
        ema9PositionValue := freed.0, ema21PositionValue := freed.1)
  }

  /** A take-profit exit reduces the position: it sells a long and buys back a
      short, at least the minimum order quantity; only a filled order books P&L
      and releases allocation, and non-negative allocations stay non-negative. */
  lemma TpLevelReduces(st: StrategyState, qtyStep: real, minOrderQty: real, price: real, level: TpConfig,
                       accepted: bool)
    ensures var r := TpLevelSpec(st, qtyStep, minOrderQty, price, level, accepted);
            (r.1.TpPlaced? ==> (r.1.side == Sell <==> st.position > 0.0) && r.1.qty >= minOrderQty &&
                               Abs(st.position) >= DUST) &&
            (r.1.TpPlaced? && r.1.filled ==>
               r.0.realizedPnl == st.realizedPnl + CalculatePnl(st.position, st.avgEntryPrice, price, r.1.qty)) &&
            (!(r.1.TpPlaced? && r.1.filled) ==> r.0 == st) &&
            (st.ema9PositionValue >= 0.0 && st.ema21PositionValue >= 0.0 ==>
               r.0.ema9PositionValue >= 0.0 && r.0.ema21PositionValue >= 0.0)
  {
  }

  /** The profit of the open position in percent of the entry price. */
  function PnlPct(position: real, avgEntryPrice: real, price: real): real
    requires avgEntryPrice != 0.0
  {
    if position > 0.0 then (price - avgEntryPrice) / avgEntryPrice * 100.0
    else (avgEntryPrice - price) / avgEntryPrice * 100.0
  }

  /** A level that check_exits would execute: not hit yet, configured, and reached. */
  predicate Ready(name: TpName, hit: set<TpName>, levels: map<TpName, TpConfig>, pnlPct: real)
  {
    name !in hit && name in levels && pnlPct >= levels[name].pct
  }

  /** The first ready level of `names`, in order. */
  function FirstReady(names: seq<TpName>, hit: set<TpName>, levels: map<TpName, TpConfig>, pnlPct: real): (r: Option<TpName>)
    ensures r.Some? ==> r.value in names && Ready(r.value, hit, levels, pnlPct)
  {
    if names == [] then None
    else if Ready(names[0], hit, levels, pnlPct) then Some(names[0])
    else FirstReady(names[1..], hit, levels, pnlPct)
  }

  /** FirstReady picks the earliest ready level and finds one whenever there is one. */
  lemma {:induction false} FirstReadyIsFirst(names: seq<TpName>, hit: set<TpName>, levels: map<TpName, TpConfig>, pnlPct: real)
    ensures var r := FirstReady(names, hit, levels, pnlPct);
            (r.None? <==> forall i :: 0 <= i < |names| ==> !Ready(names[i], hit, levels, pnlPct)) &&
            (r.Some? ==> exists i :: 0 <= i < |names| && names[i] == r.value &&
                           forall j :: 0 <= j < i ==> !Ready(names[j], hit, levels, pnlPct))
    decreases |names|
  {
    if names != [] && !Ready(names[0], hit, levels, pnlPct) {
      var rest := names[1..];
      FirstReadyIsFirst(rest, hit, levels, pnlPct);
      var r := FirstReady(names, hit, levels, pnlPct);
      if r.Some? {
        var i :| 0 <= i < |rest| && rest[i] == r.value && forall j :: 0 <= j < i ==> !Ready(rest[j], hit, levels, pnlPct);
        assert names[i + 1] == r.value;
        assert forall j :: 0 <= j < i + 1 ==> !Ready(names[j], hit, levels, pnlPct) by {
          forall j | 0 <= j < i + 1 ensures !Ready(names[j], hit, levels, pnlPct) {
            if j > 0 { assert names[j] == rest[j - 1]; }
          }
        }
      } else {
        forall i | 0 <= i < |names| ensures !Ready(names[i], hit, levels, pnlPct) {
          if i > 0 { assert names[i] == rest[i - 1]; }
        }
      }
    } else if names != [] {
      assert names[0] == FirstReady(names, hit, levels, pnlPct).value;
    }
  }

  /** What the trend part of check_exits did. */
  datatype ExitEvent = NoExit | TrendWeakeningExit | ExitRaised

  /** The trend-weakening exit of check_exits: a long when the trend is neutral
      or down, a short when it is neutral or up; printing the EMA ratio raises
      without both EMAs or with a zero slow EMA. */
  function TrendExitSpec(st: StrategyState): (e: ExitEvent)
    ensures e != NoExit <==> (st.position > 0.0 && st.trend != Uptrend) || (st.position < 0.0 && st.trend != Downtrend)
  {
    if (st.position > 0.0 && st.trend != Uptrend) || (st.position < 0.0 && st.trend != Downtrend) then
      if st.emaFast.None? || st.emaSlow.None? || st.emaSlow.value == 0.0 then ExitRaised else TrendWeakeningExit
    else NoExit
  }

  /** The result of check_exits: the level it executed, what that did, and the trend exit. */
  datatype ExitsReport = ExitsReport(level: Option<TpName>, tp: TpOutcome, exit: ExitEvent)

  /** check_exits: nothing when flat or without an entry price; in market mode
      the first ready level is executed and marked hit; then the trend exit. */
  function CheckExitsSpec(cfg: Config, st: StrategyState, qtyStep: real, minOrderQty: real, price: real,
                          accepted: bool): (r: (StrategyState, ExitsReport))
  {
    if st.position == 0.0 || st.avgEntryPrice == 0.0 then (st, ExitsReport(None, TpSkipped, NoExit))
    else
      var pnlPct := PnlPct(st.position, st.avgEntryPrice, price);
      var chosen := if cfg.tpMarket then FirstReady(TP_ORDER, st.tpLevelsHit, cfg.takeProfitLevels, pnlPct) else None;
      if chosen.None? then (st, ExitsReport(None, TpSkipped, TrendExitSpec(st)))
      else
        var tp := TpLevelSpec(st, qtyStep, minOrderQty, price, cfg.takeProfitLevels[chosen.value], accepted);
        if tp.1.TpRaised? then (tp.0, ExitsReport(chosen, TpRaised, NoExit))
        else
          var st2 := tp.0.(tpLevelsHit := tp.0.tpLevelsHit + {chosen.value});
          (st2, ExitsReport(chosen, tp.1, TrendExitSpec(st2)))
  }

  /** At most one take-profit level is marked hit per call, only in market mode,
      and it is the first of tp1, tp2, tp3 that is not hit yet, configured and reached. */
  lemma CheckExitsMarksOneLevel(cfg: Config, st: StrategyState, qtyStep: real, minOrderQty: real, price: real,
                                accepted: bool)
    ensures var r := CheckExitsSpec(cfg, st, qtyStep, minOrderQty, price, accepted);
            (r.0.tpLevelsHit == st.tpLevelsHit ||
             (r.1.level.Some? && r.0.tpLevelsHit == st.tpLevelsHit + {r.1.level.value} && r.1.level.value !in st.tpLevelsHit)) &&
            (r.1.level.Some? ==>
               (cfg.tpMarket && st.position != 0.0 && st.avgEntryPrice != 0.0 &&
                r.1.level == FirstReady(TP_ORDER, st.tpLevelsHit, cfg.takeProfitLevels,
                                        PnlPct(st.position, st.avgEntryPrice, price))))
  {
  }

  /** The replies to a cancel: none (the client already reported an error), an
      empty reply, a reply with a retCode, or a raised client error. */
  datatype CancelReply = NoReply | EmptyReply | Reply(retCode: int) | CancelRaised

  /** cancel_order: whether the order may have been filled. */
  function WasFilled(reply: CancelReply): bool
  {
    reply.NoReply? || (reply.Reply? && reply.retCode == ALREADY_GONE)
  }

  class Strategy {
    const cfg: Config
    const qtyStep: real
    const minOrderQty: real
    var position: real
    var avgEntryPrice: real
    var originalPositionSize: real
    var ema9PositionValue: real
    var ema21PositionValue: real
    var limitOrders: map<string, LimitOrderInfo>
    var tpLevelsHit: set<TpName>
    var emaFast: Option<real>
    var emaSlow: Option<real>
    var trend: Trend
    var trailingStopPrice: Option<real>
    var hardStopPrice: Option<real>
    var conditionalStopTriggered: bool
    var realizedPnl: real

    function State(): StrategyState
      reads this
    {
      StrategyState(position, avgEntryPrice, originalPositionSize, ema9PositionValue, ema21PositionValue,
                    limitOrders, tpLevelsHit, emaFast, emaSlow, trend,
                    Stops(trailingStopPrice, hardStopPrice, conditionalStopTriggered), realizedPnl)
    }

    /** The starting state: flat, nothing allocated or tracked, no EMAs, neutral, no stops. */
    static function Fresh(): StrategyState
    {
      StrategyState(0.0, 0.0, 0.0, 0.0, 0.0, map[], {}, None, None, Neutral, Stops(None, None, false), 0.0)
    }

    constructor (cfg: Config, qtyStep: real, minOrderQty: real)
      requires ConfigOk(cfg)
      ensures this.cfg == cfg && this.qtyStep == qtyStep && this.minOrderQty == minOrderQty
      ensures State() == Fresh() && StopsOk(State().stops)
    {
      this.cfg := cfg;
      this.qtyStep := qtyStep;
      this.minOrderQty := minOrderQty;
      position := 0.0;
      avgEntryPrice := 0.0;
      originalPositionSize := 0.0;
      ema9PositionValue := 0.0;
      ema21PositionValue := 0.0;
      limitOrders := map[];
      tpLevelsHit := {};
      emaFast := None;
      emaSlow := None;
      trend := Neutral;
      trailingStopPrice := None;
      hardStopPrice := None;
      conditionalStopTriggered := false;
      realizedPnl := 0.0;
    }

    /** calculate_initial_emas: mean seeds over the latest `period` closes, then
        the EMA recursion over the latest 50 closes. */
    method CalculateInitialEmas(closes: seq<real>)
      requires ConfigOk(cfg)
      modifies this`emaFast, this`emaSlow
      ensures State() == InitialEmasSpec(cfg, old(State()), closes)
    {
      if |closes| < cfg.emaSlowPeriod {
        return;
      }
      var fast := Sum(Tail(closes, cfg.emaFastPeriod)) / cfg.emaFastPeriod as real;
      var slow := Sum(Tail(closes, cfg.emaSlowPeriod)) / cfg.emaSlowPeriod as real;
      var alphaFast := Alpha(cfg.emaFastPeriod);
      var alphaSlow := Alpha(cfg.emaSlowPeriod);
      ghost var seedFast := fast;
      ghost var seedSlow := slow;
      var recent := Tail(closes, WARMUP_CLOSES);
      var i := 0;
      while i < |recent|
        invariant 0 <= i <= |recent|
        invariant fast == EmaRun(seedFast, recent[..i], alphaFast)
        invariant slow == EmaRun(seedSlow, recent[..i], alphaSlow)
      {
        PrefixStep(recent, i);
        fast := EmaStep(fast, recent[i], alphaFast);
        slow := EmaStep(slow, recent[i], alphaSlow);
        i := i + 1;
      }
      PrefixAll(recent);
      emaFast := Some(fast);
      emaSlow := Some(slow);
    }

    /** calculate_trend; false when dividing by the slow EMA raised. */
    method CalculateTrend() returns (ok: bool)
      modifies this`trend
      ensures (State(), ok) == TrendSpec(cfg, old(State()))
    {
      if emaFast.None? || emaSlow.None? {
        return true;
      }
      var t := TrendFrom(emaFast.value, emaSlow.value, cfg.trendThresholdPct);
      if t.ZeroDivision? {
        return false;
      }
      trend := t.value;
      return true;
    }

    /** update_emas; false when the trend classification raised. */
    method UpdateEmas(price: real) returns (ok: bool)
      requires ConfigOk(cfg)
      modifies this`emaFast, this`emaSlow, this`trend
      ensures (State(), ok) == UpdateEmasSpec(cfg, old(State()), price)
    {
      if emaFast.None? || emaSlow.None? {
        return true;
      }
      emaFast := Some(EmaStep(emaFast.value, price, Alpha(cfg.emaFastPeriod)));
      emaSlow := Some(EmaStep(emaSlow.value, price, Alpha(cfg.emaSlowPeriod)));
      ok := CalculateTrend();
    }

    /** manage_stops; the full exit it would start is returned as the event. */
    method ManageStops(price: real, isNewCandle: bool) returns (event: StopEvent)
      modifies this`trailingStopPrice, this`hardStopPrice, this`conditionalStopTriggered
      ensures (State().stops, event) ==
              StopsSpec(cfg, position, avgEntryPrice, emaSlow, old(State().stops), price, isNewCandle)
    {
      if position == 0.0 || avgEntryPrice == 0.0 {
        return NoStop;
      }
      if emaSlow.None? {
        return StopsRaised;
      }
      var long := position > 0.0;
      var conditional := StopLevel(emaSlow.value, cfg.stopLossPct, long);
      var hard := StopLevel(emaSlow.value, cfg.hardStopLossPct, long);
      if trailingStopPrice.None? {
        trailingStopPrice := Some(conditional);
        hardStopPrice := Some(hard);
      } else {
        trailingStopPrice := Some(Tighten(trailingStopPrice.value, conditional, long));
        if hardStopPrice.None? {
          return StopsRaised;
        }
        hardStopPrice := Some(Tighten(hardStopPrice.value, hard, long));
      }
      if Breached(price, hardStopPrice.value, long) {
        return HardStopExit;
      }
      if Breached(price, trailingStopPrice.value, long) {
        conditionalStopTriggered := true;
      }
      if isNewCandle && Breached(price, trailingStopPrice.value, long) {
        return ConditionalStopExit;
      }
      if isNewCandle {
        conditionalStopTriggered := false;
      }
      return NoStop;
    }

    /** execute_tp_level for one level; `accepted` is the exchange's answer to the order. */
    method ExecuteTpLevel(price: real, level: TpConfig, accepted: bool) returns (outcome: TpOutcome)
      modifies this`realizedPnl, this`ema9PositionValue, this`ema21PositionValue
      ensures (State(), outcome) == TpLevelSpec(old(State()), qtyStep, minOrderQty, price, level, accepted)
    {
      if Abs(position) < DUST || originalPositionSize == 0.0 {
        return TpSkipped;
      }
      var exitQty := TpExitQuantity(originalPositionSize, level.exitPct, position);
      var formatted := FormatQuantity(exitQty, qtyStep, minOrderQty);
      if formatted.ZeroDivision? {
        return TpRaised;
      }
      var qty := formatted.value;
      var side := if position > 0.0 then Sell else Buy;
      if !accepted {
        return TpPlaced(side, qty, false);
      }
      ghost var before := State();
      var pnl := CalculatePnl(position, avgEntryPrice, price, qty);
      var freed := FreeAllocations(ema9PositionValue, ema21PositionValue, qty * avgEntryPrice);
      assert before.position == position && before.avgEntryPrice == avgEntryPrice && before.realizedPnl == realizedPnl;
      assert before.ema9PositionValue == ema9PositionValue && before.ema21PositionValue == ema21PositionValue;
      ghost var filled := TpFill(before, price, qty);
      assert filled == before.(realizedPnl := before.realizedPnl + pnl,
                               ema9PositionValue := freed.0, ema21PositionValue := freed.1);
      realizedPnl, ema9PositionValue, ema21PositionValue := realizedPnl + pnl, freed.0, freed.1;
      assert State() == filled;
      assert TpLevelSpec(before, qtyStep, minOrderQty, price, level, accepted) ==
             (TpFill(before, price, qty), TpPlaced(side, qty, true));
      return TpPlaced(side, qty, true);
    }

    /** check_exits; `accepted` is the exchange's answer to a take-profit order. */
    method CheckExits(price: real, accepted: bool) returns (report: ExitsReport)
      modifies this`realizedPnl, this`ema9PositionValue, this`ema21PositionValue, this`tpLevelsHit
      ensures (State(), report) == CheckExitsSpec(cfg, old(State()), qtyStep, minOrderQty, price, accepted)
    {
      if position == 0.0 || avgEntryPrice == 0.0 {
        return ExitsReport(None, TpSkipped, NoExit);
      }
      var pnlPct := PnlPct(position, avgEntryPrice, price);
      var chosen: Option<TpName> := None;
      if cfg.tpMarket {
        var i := 0;
        while i < |TP_ORDER|
          invariant 0 <= i <= |TP_ORDER|
          invariant chosen.None? ==>
                      FirstReady(TP_ORDER[i..], tpLevelsHit, cfg.takeProfitLevels, pnlPct) ==
                      FirstReady(TP_ORDER, tpLevelsHit, cfg.takeProfitLevels, pnlPct)
          invariant chosen.Some? ==> chosen == FirstReady(TP_ORDER, tpLevelsHit, cfg.takeProfitLevels, pnlPct)
          decreases |TP_ORDER| - i
        {
          var name := TP_ORDER[i];
          if Ready(name, tpLevelsHit, cfg.takeProfitLevels, pnlPct) {
            chosen := Some(name);
            break;
          }
          i := i + 1;
        }
      }
      if chosen.None? {
        return ExitsReport(None, TpSkipped, TrendExitSpec(State()));
      }
      var tp := ExecuteTpLevel(price, cfg.takeProfitLevels[chosen.value], accepted);
      if tp.TpRaised? {
        return ExitsReport(chosen, TpRaised, NoExit);
      }
      tpLevelsHit := tpLevelsHit + {chosen.value};
      return ExitsReport(chosen, tp, TrendExitSpec(State()));
    }

    /** cancel_order: the id leaves the tracked orders whatever the reply. */
    method CancelOrder(orderId: string, reply: CancelReply) returns (wasFilled: bool)
      modifies this`limitOrders
      ensures limitOrders == old(limitOrders) - {orderId}
      ensures orderId !in limitOrders
      ensures wasFilled == WasFilled(reply)
    {
      wasFilled := false;
      if reply.Reply? && reply.retCode == ALREADY_GONE {
        wasFilled := true;
      } else if reply.NoReply? {
        wasFilled := true;
      }
      if orderId in limitOrders {
        limitOrders := map k | k in limitOrders && k != orderId :: limitOrders[k];
      }
    }
  }
}
