// The risk manager: balance, peak and drawdown tracking, the trade record with
// its consecutive-loss counter and daily P&L, the halting circuit breaker with
// its one-hour cooldown, and the position-size, Kelly and risk/reward checks.
module RiskManager {
  import opened Common

  datatype RiskLimits = RiskLimits(maxDrawdownPct: real, dailyLossLimit: real, maxConsecutiveLosses: int,
                                   maxPositionPct: real, minRiskRewardRatio: real, maxCorrelationExposure: real)

  const DEFAULT_LIMITS: RiskLimits := RiskLimits(20.0, 100.0, 5, 30.0, 1.5, 0.7)

  /** Seconds a halt lasts before trading may resume. */
  const COOLDOWN_SECONDS: real := 3600.0

  const KELLY_FRACTION: real := 0.25
  const KELLY_DEFAULT: real := 0.1
  const KELLY_MINIMUM: real := 0.01

  datatype RiskMetrics = RiskMetrics(maxDrawdownPct: real, currentDrawdownPct: real, dailyPnl: real,
                                     consecutiveLosses: int, peakBalance: real, currentBalance: real)

  /** update_balance on values. */
  function UpdateBalance(m: RiskMetrics, newBalance: real): (r: RiskMetrics)
    ensures r.currentBalance == newBalance
    // the peak never decreases and bounds the current balance
    ensures r.peakBalance == Max(m.peakBalance, newBalance)
    ensures r.peakBalance > 0.0 ==>
              r.currentDrawdownPct == (r.peakBalance - newBalance) / r.peakBalance * 100.0 &&
              r.currentDrawdownPct >= 0.0
    ensures r.peakBalance <= 0.0 ==> r.currentDrawdownPct == m.currentDrawdownPct
    // the maximum drawdown never decreases and bounds the current one
    ensures r.maxDrawdownPct == Max(m.maxDrawdownPct, r.currentDrawdownPct)
    ensures r.dailyPnl == m.dailyPnl && r.consecutiveLosses == m.consecutiveLosses
  {
    var peak := if newBalance > m.peakBalance then newBalance else m.peakBalance;
    var dd := if peak > 0.0 then (peak - newBalance) / peak * 100.0 else m.currentDrawdownPct;
    assert peak > 0.0 ==> (peak - newBalance) / peak * 100.0 >= 0.0;
    var maxDd := if dd > m.maxDrawdownPct then dd else m.maxDrawdownPct;
    m.(currentBalance := newBalance, peakBalance := peak, currentDrawdownPct := dd, maxDrawdownPct := maxDd)
  }

  /** A drawdown of a non-negative balance from a positive peak is at most 100%. */
  lemma DrawdownAtMostFull(m: RiskMetrics, newBalance: real)
    requires newBalance >= 0.0 && Max(m.peakBalance, newBalance) > 0.0
    ensures 0.0 <= UpdateBalance(m, newBalance).currentDrawdownPct <= 100.0
  {
    var peak := Max(m.peakBalance, newBalance);
    DivWithin(peak - newBalance, peak, 0.0, 1.0);
  }

  /** Feeding several balances in order. */
  function UpdateAll(m: RiskMetrics, balances: seq<real>): RiskMetrics
    decreases |balances|
  {
    if balances == [] then m else UpdateBalance(UpdateAll(m, balances[..|balances| - 1]), balances[|balances| - 1])
  }

  /** Over any run of balance updates the peak is at least every balance seen,
      and neither the peak nor the maximum drawdown ever drops. */
  lemma {:induction false} UpdateAllMonotone(m: RiskMetrics, balances: seq<real>)
    ensures UpdateAll(m, balances).peakBalance >= m.peakBalance
    ensures UpdateAll(m, balances).maxDrawdownPct >= m.maxDrawdownPct
    ensures forall i :: 0 <= i < |balances| ==> UpdateAll(m, balances).peakBalance >= balances[i]
    decreases |balances|
  {
    if balances != [] {
      var init := balances[..|balances| - 1];
      UpdateAllMonotone(m, init);
      forall i | 0 <= i < |balances| ensures UpdateAll(m, balances).peakBalance >= balances[i] {
        if i < |init| { assert balances[i] == init[i]; }
      }
    }
  }

  /** The consecutive-loss counter after one trade. */
  function NextLosses(losses: int, pnl: real): (r: int)
    ensures pnl < 0.0 ==> r == losses + 1
    ensures pnl >= 0.0 ==> r == 0
  {
    if pnl < 0.0 then losses + 1 else 0
  }

  function LossesAfter(losses: int, pnls: seq<real>): int
    decreases |pnls|
  {
    if pnls == [] then losses else NextLosses(LossesAfter(losses, pnls[..|pnls| - 1]), pnls[|pnls| - 1])
  }

  /** The number of losing trades at the end of `pnls`. */
  function TrailingLosses(pnls: seq<real>): nat
    decreases |pnls|
  {
    if pnls == [] || pnls[|pnls| - 1] >= 0.0 then 0 else TrailingLosses(pnls[..|pnls| - 1]) + 1
  }

  /** The counter is the run of losses at the end of the history, carried over
      from before only when every trade since lost. */
  lemma {:induction false} LossesCountTrailingRun(losses: int, pnls: seq<real>)
    ensures (forall i :: 0 <= i < |pnls| ==> pnls[i] < 0.0) ==> LossesAfter(losses, pnls) == losses + |pnls|
    ensures (exists i :: 0 <= i < |pnls| && pnls[i] >= 0.0) ==> LossesAfter(losses, pnls) == TrailingLosses(pnls)
    decreases |pnls|
  {
    if pnls != [] {
      var init := pnls[..|pnls| - 1];
      LossesCountTrailingRun(losses, init);
      if forall i :: 0 <= i < |pnls| ==> pnls[i] < 0.0 {
        assert forall i :: 0 <= i < |init| ==> init[i] < 0.0 by {
          forall i | 0 <= i < |init| ensures init[i] < 0.0 { assert init[i] == pnls[i]; }
        }
      }
      if pnls[|pnls| - 1] < 0.0 && exists i :: 0 <= i < |pnls| && pnls[i] >= 0.0 {
        var i :| 0 <= i < |pnls| && pnls[i] >= 0.0;
        assert init[i] == pnls[i];
      }
    }
  }

  /** A recorded trade; the return is a percentage of the entry notional, 0 for
      a non-positive entry price. */
  datatype Trade = Trade(timestamp: real, pnl: real, entryPrice: real, exitPrice: real, quantity: real,
                         returnPct: real)

  function MakeTrade(now: real, pnl: real, entryPrice: real, exitPrice: real, quantity: real): (r: Outcome<Trade>)
    ensures r.ZeroDivision? <==> entryPrice > 0.0 && entryPrice * quantity == 0.0
    ensures r.Ok? ==> r.value.pnl == pnl && r.value.entryPrice == entryPrice &&
                      r.value.exitPrice == exitPrice && r.value.quantity == quantity &&
                      (entryPrice <= 0.0 ==> r.value.returnPct == 0.0) &&
                      (entryPrice > 0.0 ==> r.value.returnPct * (entryPrice * quantity) == pnl * 100.0)
  {
    if entryPrice > 0.0 && entryPrice * quantity == 0.0 then ZeroDivision
    else Ok(Trade(now, pnl, entryPrice, exitPrice, quantity,
                  if entryPrice > 0.0 then (pnl / (entryPrice * quantity)) * 100.0 else 0.0))
  }

  /** Why trading was halted. */
  datatype HaltReason = DrawdownExceeded(pct: real) | DailyLossExceeded(pnl: real) | TooManyLosses(count: int)

  datatype HaltState = HaltState(halted: bool, reason: Option<HaltReason>, time: Option<real>)

  /** A halt has a reason; trading that is not halted has none. */
  predicate Coherent(h: HaltState)
  {
    h.halted <==> h.reason.Some?
  }

  /** _should_resume_trading: no halt time, or more than the cooldown since it. */
  predicate ShouldResume(time: Option<real>, now: real)
  {
    time.None? || now - time.value > COOLDOWN_SECONDS
  }

  predicate Breached(m: RiskMetrics, lim: RiskLimits)
  {
    m.currentDrawdownPct > lim.maxDrawdownPct || m.dailyPnl < -lim.dailyLossLimit ||
    m.consecutiveLosses >= lim.maxConsecutiveLosses
  }

  /** The first limit breached, in the order they are checked. */
  function FirstBreach(m: RiskMetrics, lim: RiskLimits): HaltReason
  {
    if m.currentDrawdownPct > lim.maxDrawdownPct then DrawdownExceeded(m.currentDrawdownPct)
    else if m.dailyPnl < -lim.dailyLossLimit then DailyLossExceeded(m.dailyPnl)
    else TooManyLosses(m.consecutiveLosses)
  }

  datatype Check = Check(safe: bool, reason: Option<HaltReason>, halt: HaltState)

  /** check_risk_limits on values. */
  function CheckRiskLimits(h: HaltState, m: RiskMetrics, lim: RiskLimits, now: real): (r: Check)
    // a halt within its cooldown keeps reporting its reason and changes nothing
    ensures h.halted && !ShouldResume(h.time, now) ==> r == Check(false, h.reason, h)
    ensures r.safe <==> !(h.halted && !ShouldResume(h.time, now)) && !Breached(m, lim)
    ensures r.safe ==> r.reason == None && !r.halt.halted && r.halt.time == h.time
    ensures Coherent(h) ==> Coherent(r.halt)
    // a breach halts trading now, with the first breached limit as the reason
    ensures !(h.halted && !ShouldResume(h.time, now)) && Breached(m, lim) ==>
              r == Check(false, Some(FirstBreach(m, lim)), HaltState(true, Some(FirstBreach(m, lim)), Some(now)))
  {
    if h.halted && !ShouldResume(h.time, now) then Check(false, h.reason, h)
    else
      var h1 := if h.halted then h.(halted := false, reason := None) else h;
      if m.currentDrawdownPct > lim.maxDrawdownPct then
        Check(false, Some(DrawdownExceeded(m.currentDrawdownPct)), HaltState(true, Some(DrawdownExceeded(m.currentDrawdownPct)), Some(now)))
      else if m.dailyPnl < -lim.dailyLossLimit then
        Check(false, Some(DailyLossExceeded(m.dailyPnl)), HaltState(true, Some(DailyLossExceeded(m.dailyPnl)), Some(now)))
      else if m.consecutiveLosses >= lim.maxConsecutiveLosses then
        Check(false, Some(TooManyLosses(m.consecutiveLosses)), HaltState(true, Some(TooManyLosses(m.consecutiveLosses)), Some(now)))
      else Check(true, None, h1)
  }

  /** Once a breach halts trading, every check within the cooldown refuses with
      the same reason, whatever the metrics have become. */
  lemma HaltHoldsThroughCooldown(h: HaltState, m: RiskMetrics, m': RiskMetrics, lim: RiskLimits, now: real, later: real)
    requires !CheckRiskLimits(h, m, lim, now).safe
    requires later - now <= COOLDOWN_SECONDS
    ensures var h' := CheckRiskLimits(h, m, lim, now).halt;
            h'.halted && h'.time.Some? && later - h'.time.value <= COOLDOWN_SECONDS ==>
              CheckRiskLimits(h', m', lim, later) == Check(false, h'.reason, h')
  {
  }

  /** validate_position_size: a size above the balance share is cut to it; a
      size that would exceed the balance is cut to what is left, or refused. */
  function ValidatePositionSize(lim: RiskLimits, balance: real, size: real, exposure: real): (r: (bool, real))
    ensures r.0 ==> r.1 <= balance * (lim.maxPositionPct / 100.0) && r.1 <= size
    ensures !r.0 ==> r.1 == 0.0
    ensures size > balance * (lim.maxPositionPct / 100.0) ==> r == (true, balance * (lim.maxPositionPct / 100.0))
    ensures size <= balance * (lim.maxPositionPct / 100.0) && exposure + size <= balance ==> r == (true, size)
    ensures size <= balance * (lim.maxPositionPct / 100.0) && exposure + size > balance ==>
              r == if balance - exposure > 0.0 then (true, balance - exposure) else (false, 0.0)
  {
    var maxPosition := balance * (lim.maxPositionPct / 100.0);
    if size > maxPosition then (true, maxPosition)
    else if exposure + size > balance then
      var available := balance - exposure;
      if available > 0.0 then (true, available) else (false, 0.0)
    else (true, size)
  }

  /** The share of the balance kept below the cap, within the exposure the cap allows. */
  lemma ValidatedSizeFitsBalance(lim: RiskLimits, balance: real, size: real, exposure: real)
    requires size <= balance * (lim.maxPositionPct / 100.0)
    ensures var r := ValidatePositionSize(lim, balance, size, exposure);
            r.0 ==> exposure + r.1 <= balance
  {
  }

  /** calculate_position_size_kelly. A zero average win makes the ratio zero and
      the division raise. */
  function KellySize(lim: RiskLimits, winRate: real, avgWin: real, avgLoss: real): (r: Outcome<real>)
    ensures avgLoss == 0.0 || winRate == 0.0 ==> r == Ok(KELLY_DEFAULT)
    ensures avgLoss != 0.0 && winRate != 0.0 ==> (r.ZeroDivision? <==> avgWin == 0.0)
    ensures avgLoss != 0.0 && winRate != 0.0 && r.Ok? ==>
              KELLY_MINIMUM <= r.value <= Max(lim.maxPositionPct / 100.0, KELLY_MINIMUM)
  {
    if avgLoss == 0.0 || winRate == 0.0 then Ok(KELLY_DEFAULT)
    else
      var p := winRate / 100.0;
      var q := 1.0 - p;
      var b := Abs(avgWin / avgLoss);
      assert b == 0.0 <==> avgWin == 0.0 by {
        if avgWin != 0.0 { assert avgWin / avgLoss * avgLoss == avgWin; }
      }
      if b == 0.0 then ZeroDivision
      else
        var kelly := (p * b - q) / b;
        Ok(Max(Min(kelly * KELLY_FRACTION, lim.maxPositionPct / 100.0), KELLY_MINIMUM))
  }

  /** check_risk_reward_ratio. */
  function RiskRewardOk(lim: RiskLimits, entry: real, takeProfit: real, stopLoss: real): (ok: bool)
    ensures entry == stopLoss ==> !ok
    ensures entry != stopLoss ==>
              (ok <==> Abs(takeProfit - entry) >= lim.minRiskRewardRatio * Abs(entry - stopLoss))
  {
    var profit := Abs(takeProfit - entry);
    var loss := Abs(entry - stopLoss);
    if loss == 0.0 then false
    else
      assert profit / loss >= lim.minRiskRewardRatio <==> profit >= lim.minRiskRewardRatio * loss by {
        assert profit == (profit / loss) * loss;
        if profit / loss >= lim.minRiskRewardRatio {
          MulMonotoneRight(lim.minRiskRewardRatio, profit / loss, loss);
        } else {
          MulMonotoneRight(profit / loss, lim.minRiskRewardRatio, loss);
        }
      }
      profit / loss >= lim.minRiskRewardRatio
  }

  lemma MulMonotoneRight(a: real, b: real, c: real)
    requires a <= b && c >= 0.0
    ensures a * c <= b * c
  {
    MulNonneg(b - a, c);
  }

  class RiskManager {
    const initialBalance: real
    const limits: RiskLimits
    var metrics: RiskMetrics
    var dailyPnlHistory: map<int, real>
    var tradeHistory: seq<Trade>
    var tradingHalted: bool
    var haltReason: Option<HaltReason>
    var haltTime: Option<real>

    function Halt(): HaltState
      reads this
    {
      HaltState(tradingHalted, haltReason, haltTime)
    }

    ghost predicate Valid()
      reads this
    {
      Coherent(Halt())
    }

    constructor (initialBalance: real, limits: Option<RiskLimits>)
      ensures this.initialBalance == initialBalance
      ensures this.limits == if limits.Some? then limits.value else DEFAULT_LIMITS
      ensures metrics == RiskMetrics(0.0, 0.0, 0.0, 0, initialBalance, initialBalance)
      ensures dailyPnlHistory == map[] && tradeHistory == []
      ensures Valid() && Halt() == HaltState(false, None, None)
    {
      this.initialBalance := initialBalance;
      this.limits := if limits.Some? then limits.value else DEFAULT_LIMITS;
      metrics := RiskMetrics(0.0, 0.0, 0.0, 0, initialBalance, initialBalance);
      dailyPnlHistory := map[];
      tradeHistory := [];
      tradingHalted, haltReason, haltTime := false, None, None;
    }

    /** update_balance. */
    method UpdateBalanceNow(newBalance: real)
      modifies this`metrics
      ensures metrics == UpdateBalance(old(metrics), newBalance)
    {
      metrics := metrics.(currentBalance := newBalance);
      if newBalance > metrics.peakBalance {
        metrics := metrics.(peakBalance := newBalance);
      }
      if metrics.peakBalance > 0.0 {
        metrics := metrics.(currentDrawdownPct := (metrics.peakBalance - newBalance) / metrics.peakBalance * 100.0);
      }
      if metrics.currentDrawdownPct > metrics.maxDrawdownPct {
        metrics := metrics.(maxDrawdownPct := metrics.currentDrawdownPct);
      }
    }

    /** record_trade, on the trading day `day` at time `now`. The trade is built
        before anything changes, so a zero entry notional raises and records
        nothing. */
    method RecordTrade(pnl: real, entryPrice: real, exitPrice: real, quantity: real, now: real, day: int)
      returns (r: Outcome<Trade>)
      modifies this`metrics, this`dailyPnlHistory, this`tradeHistory
      ensures r == MakeTrade(now, pnl, entryPrice, exitPrice, quantity)
      ensures r.ZeroDivision? ==>
                metrics == old(metrics) && dailyPnlHistory == old(dailyPnlHistory) && tradeHistory == old(tradeHistory)
      ensures r.Ok? ==>
                tradeHistory == old(tradeHistory) + [r.value] &&
                dailyPnlHistory == old(dailyPnlHistory)[day := (if day in old(dailyPnlHistory) then old(dailyPnlHistory)[day] else 0.0) + pnl] &&
                metrics == UpdateBalance(old(metrics).(consecutiveLosses := NextLosses(old(metrics).consecutiveLosses, pnl),
                                                       dailyPnl := dailyPnlHistory[day]),
                                         old(metrics).currentBalance + pnl)
    {
      r := MakeTrade(now, pnl, entryPrice, exitPrice, quantity);
      if r.ZeroDivision? {
        return;
      }
      tradeHistory := tradeHistory + [r.value];
      if pnl < 0.0 {
        metrics := metrics.(consecutiveLosses := metrics.consecutiveLosses + 1);
      } else {
        metrics := metrics.(consecutiveLosses := 0);
      }
      if day !in dailyPnlHistory {
        dailyPnlHistory := dailyPnlHistory[day := 0.0];
      }
      dailyPnlHistory := dailyPnlHistory[day := dailyPnlHistory[day] + pnl];
      metrics := metrics.(dailyPnl := dailyPnlHistory[day]);
      UpdateBalanceNow(metrics.currentBalance + pnl);
    }

    /** check_risk_limits at time `now`. */
    method CheckRiskLimitsNow(now: real) returns (safe: bool, reason: Option<HaltReason>)
      requires Valid()
      modifies this`tradingHalted, this`haltReason, this`haltTime
      ensures Valid()
      ensures Check(safe, reason, Halt()) == CheckRiskLimits(old(Halt()), metrics, limits, now)
    {
      if tradingHalted {
        if haltTime.None? || now - haltTime.value > COOLDOWN_SECONDS {
          tradingHalted := false;
          haltReason := None;
        } else {
          return false, haltReason;
        }
      }
      if metrics.currentDrawdownPct > limits.maxDrawdownPct {
        var why := DrawdownExceeded(metrics.currentDrawdownPct);
        tradingHalted, haltReason, haltTime := true, Some(why), Some(now);
        return false, Some(why);
      }
      if metrics.dailyPnl < -limits.dailyLossLimit {
        var why := DailyLossExceeded(metrics.dailyPnl);
        tradingHalted, haltReason, haltTime := true, Some(why), Some(now);
        return false, Some(why);
      }
      if metrics.consecutiveLosses >= limits.maxConsecutiveLosses {
        var why := TooManyLosses(metrics.consecutiveLosses);
        tradingHalted, haltReason, haltTime := true, Some(why), Some(now);
        return false, Some(why);
      }
      return true, None;
    }
  }
}
