// The EMA trend bias: a fast and a slow EMA over closed candles, and a bias in
// [-1, 1] that says whether trend and slope favour acting now on the side the
// rebalance needs (+1: the bot must sell spot, -1: it must buy spot).
module TrendBias {
  import opened Common
  import opened Ema

  /** Weights of the trend and slope terms, and the slope scale. */
  const TREND_WEIGHT: real := 0.6
  const SLOPE_WEIGHT: real := 0.4
  const SLOPE_SCALE: real := 1000.0

  /** +1 when the fast EMA is above the slow one by at least the threshold in
      percent of the slow EMA, -1 when it is below (or level, with a threshold
      of zero or less), 0 when the slow EMA is not positive or the difference is
      inside the threshold. */
  function TrendTerm(emaFast: real, emaSlow: real, thresholdPct: real): (t: real)
    ensures t == 0.0 || t == 1.0 || t == -1.0
    ensures emaSlow <= 0.0 ==> t == 0.0
    ensures emaSlow > 0.0 ==>
              (t == 0.0 <==> Abs((emaFast - emaSlow) / emaSlow * 100.0) < thresholdPct)
    ensures t == 1.0 ==> emaFast > emaSlow
    ensures t == -1.0 ==> emaFast <= emaSlow
  {
    if emaSlow > 0.0 then
      var diffPct := (emaFast - emaSlow) / emaSlow * 100.0;
      assert diffPct > 0.0 <==> emaFast > emaSlow by { SignOfRatio(emaFast - emaSlow, emaSlow); }
      if Abs(diffPct) >= thresholdPct then (if diffPct > 0.0 then 1.0 else -1.0) else 0.0
    else 0.0
  }

  lemma SignOfRatio(x: real, s: real)
    requires s > 0.0
    ensures x / s * 100.0 > 0.0 <==> x > 0.0
  {
    assert x / s * 100.0 == (x * 100.0) / s;
  }

  /** Equal EMAs with a threshold of zero or less count as a downtrend, since the
      level case falls on the "else -1" side of the comparison. */
  lemma TrendTermLevelEmas(ema: real, thresholdPct: real)
    requires ema > 0.0 && thresholdPct <= 0.0
    ensures TrendTerm(ema, ema, thresholdPct) == -1.0
  {
  }

  /** The fast EMA's relative change since the previous candle, scaled by 1000
      and clipped to [-1, 1]; 0 without a positive previous value. */
  function SlopeTerm(emaFast: real, prevFast: Option<real>): (s: real)
    ensures -1.0 <= s <= 1.0
    ensures prevFast.None? || prevFast.value <= 0.0 ==> s == 0.0
    ensures prevFast.Some? && prevFast.value > 0.0 ==> Sign(s) == Sign(emaFast - prevFast.value)
  {
    if prevFast.Some? && prevFast.value > 0.0 then
      var raw := (emaFast - prevFast.value) / prevFast.value;
      assert Sign(raw * SLOPE_SCALE) == Sign(emaFast - prevFast.value) by {
        assert raw * SLOPE_SCALE == ((emaFast - prevFast.value) * SLOPE_SCALE) / prevFast.value;
      }
      Clamp(raw * SLOPE_SCALE, -1.0, 1.0)
    else 0.0
  }

  /** Combine the two terms against the needed side and clamp to [-1, 1]. */
  function BiasOf(trend: real, slope: real, sideNeeded: int): (b: real)
    ensures -1.0 <= b <= 1.0
    ensures sideNeeded == 0 ==> b == 0.0
  {
    var raw := RawBias(trend, slope, sideNeeded);
    if raw > 1.0 then 1.0 else if raw < -1.0 then -1.0 else raw
  }

  /** The weighted sum of the two terms against the needed side, before clamping. */
  function RawBias(trend: real, slope: real, sideNeeded: int): real
  {
    TREND_WEIGHT * (-trend * sideNeeded as real) + SLOPE_WEIGHT * (-slope * sideNeeded as real)
  }

  /** Asking for the opposite side negates the bias. */
  lemma BiasAntisymmetric(trend: real, slope: real, sideNeeded: int)
    ensures BiasOf(trend, slope, -sideNeeded) == -BiasOf(trend, slope, sideNeeded)
  {
    var d := sideNeeded as real;
    var a := -trend * d;
    var b := -slope * d;
    assert RawBias(trend, slope, -sideNeeded) == -RawBias(trend, slope, sideNeeded) by {
      assert (-sideNeeded) as real == -d;
      assert -trend * -d == -a;
      assert -slope * -d == -b;
      assert TREND_WEIGHT * -a + SLOPE_WEIGHT * -b == -(TREND_WEIGHT * a + SLOPE_WEIGHT * b);
    }
  }

  /** Needing to sell into a downtrend whose fast EMA is falling favours acting
      now: the bias is at least the trend weight. */
  lemma BiasFavoursSellingIntoDowntrend(slope: real)
    requires -1.0 <= slope <= 0.0
    ensures BiasOf(-1.0, slope, 1) >= TREND_WEIGHT
  {
  }

  /** The mutable part of the EMA trend bias. */
  datatype EmaState = EmaState(emaFast: Option<real>, emaSlow: Option<real>, lastClose: Option<real>,
                               lastTs: Option<int>, prevEmaFast: Option<real>, prevEmaSlow: Option<real>)

  /** on_closed_candle on values: nothing happens before both EMAs are seeded;
      afterwards the old EMAs become the previous ones and each takes one step
      toward the close. */
  function CandleStep(s: EmaState, closePrice: real, closeTsMs: int, fastPeriod: int, slowPeriod: int): (r: EmaState)
    requires (s.emaFast.Some? ==> fastPeriod >= 1) && (s.emaSlow.Some? ==> slowPeriod >= 1)
    ensures s.emaFast.None? || s.emaSlow.None? ==> r == s
    ensures s.emaFast.Some? && s.emaSlow.Some? ==>
              r.prevEmaFast == s.emaFast && r.prevEmaSlow == s.emaSlow &&
              r.lastClose == Some(closePrice) && r.lastTs == Some(closeTsMs) &&
              r.emaFast.Some? && r.emaSlow.Some? &&
              Min(s.emaFast.value, closePrice) <= r.emaFast.value <= Max(s.emaFast.value, closePrice) &&
              Min(s.emaSlow.value, closePrice) <= r.emaSlow.value <= Max(s.emaSlow.value, closePrice)
  {
    if s.emaFast.None? || s.emaSlow.None? then s
    else EmaState(Some(EmaStep(s.emaFast.value, closePrice, Alpha(fastPeriod))),
                  Some(EmaStep(s.emaSlow.value, closePrice, Alpha(slowPeriod))),
                  Some(closePrice), Some(closeTsMs), s.emaFast, s.emaSlow)
  }

  /** The EMA state fed by closed candles. */
  class EmaTrendBias {
    const fastPeriod: int
    const slowPeriod: int
    const trendThresholdPct: real
    var emaFast: Option<real>
    var emaSlow: Option<real>
    var lastClose: Option<real>
    var lastTs: Option<int>
    var prevEmaFast: Option<real>
    var prevEmaSlow: Option<real>

    /** A seeded EMA always has a period of at least 1: seeding with a period
        of 0 raises before anything is assigned. */
    ghost predicate Valid()
      reads this
    {
      fastPeriod >= 0 && slowPeriod >= 0 &&
      (emaFast.Some? ==> fastPeriod >= 1) && (emaSlow.Some? ==> slowPeriod >= 1)
    }

    constructor (fastPeriod: int, slowPeriod: int, trendThresholdPct: real)
      requires fastPeriod >= 0 && slowPeriod >= 0
      ensures Valid()
      ensures this.fastPeriod == fastPeriod && this.slowPeriod == slowPeriod
      ensures this.trendThresholdPct == trendThresholdPct
      ensures emaFast == None && emaSlow == None && lastClose == None && lastTs == None
      ensures prevEmaFast == None && prevEmaSlow == None
    {
      this.fastPeriod := fastPeriod;
      this.slowPeriod := slowPeriod;
      this.trendThresholdPct := trendThresholdPct;
      emaFast, emaSlow, lastClose, lastTs := None, None, None, None;
      prevEmaFast, prevEmaSlow := None, None;
    }

    function State(): EmaState
      reads this
    {
      EmaState(emaFast, emaSlow, lastClose, lastTs, prevEmaFast, prevEmaSlow)
    }

    function Lookback(): int
      reads this
    {
      if fastPeriod >= slowPeriod then fastPeriod else slowPeriod
    }

    /** initialize: with enough closes, seed each EMA with the SMA of its first
        `period` closes and feed it every close after the longer period. A period
        of 0 makes the SMA seed divide by zero: the call raises ZeroDivisionError
        (`raised`), after seeding the fast EMA when only the slow period is 0. */
    method Initialize(closes: seq<real>) returns (raised: bool)
      requires Valid()
      modifies this`emaFast, this`emaSlow
      ensures Valid()
      ensures raised <==> |closes| > 0 && |closes| >= Lookback() && (fastPeriod == 0 || slowPeriod == 0)
      ensures |closes| == 0 || |closes| < Lookback() ==> emaFast == old(emaFast) && emaSlow == old(emaSlow)
      ensures raised && fastPeriod == 0 ==> emaFast == old(emaFast) && emaSlow == old(emaSlow)
      ensures raised && fastPeriod >= 1 ==> emaFast == Some(Sma(closes, fastPeriod)) && emaSlow == old(emaSlow)
      ensures |closes| >= Lookback() && fastPeriod >= 1 && slowPeriod >= 1 ==>
                emaFast == Some(EmaRun(Sma(closes, fastPeriod), closes[Lookback()..], Alpha(fastPeriod))) &&
                emaSlow == Some(EmaRun(Sma(closes, slowPeriod), closes[Lookback()..], Alpha(slowPeriod)))
    {
      var m := Lookback();
      if |closes| == 0 || |closes| < m {
        return false;
      }
      if fastPeriod == 0 {
        return true;
      }
      var fast := Sma(closes, fastPeriod);
      if slowPeriod == 0 {
        emaFast := Some(fast);
        return true;
      }
      var slow := Sma(closes, slowPeriod);
      var aFast := Alpha(fastPeriod);
      var aSlow := Alpha(slowPeriod);
      var rest := closes[m..];
      var i := 0;
      while i < |rest|
        invariant 0 <= i <= |rest|
        invariant fast == EmaRun(Sma(closes, fastPeriod), rest[..i], aFast)
        invariant slow == EmaRun(Sma(closes, slowPeriod), rest[..i], aSlow)
      {
        PrefixStep(rest, i);
        fast := EmaStep(fast, rest[i], aFast);
        slow := EmaStep(slow, rest[i], aSlow);
        i := i + 1;
      }
      PrefixAll(rest);
      emaFast, emaSlow := Some(fast), Some(slow);
      return false;
    }

    /** on_closed_candle: once seeded, remember the previous EMAs and take one step. */
    method OnClosedCandle(closePrice: real, closeTsMs: int)
      requires Valid()
      modifies this
      ensures Valid()
      ensures State() == CandleStep(old(State()), closePrice, closeTsMs, fastPeriod, slowPeriod)
      ensures old(emaFast).None? || old(emaSlow).None? ==>
                emaFast == old(emaFast) && emaSlow == old(emaSlow) && prevEmaFast == old(prevEmaFast) &&
                prevEmaSlow == old(prevEmaSlow) && lastClose == old(lastClose) && lastTs == old(lastTs)
      ensures old(emaFast).Some? && old(emaSlow).Some? ==>
                prevEmaFast == old(emaFast) && prevEmaSlow == old(emaSlow) &&
                emaFast == Some(EmaStep(old(emaFast).value, closePrice, Alpha(fastPeriod))) &&
                emaSlow == Some(EmaStep(old(emaSlow).value, closePrice, Alpha(slowPeriod))) &&
                lastClose == Some(closePrice) && lastTs == Some(closeTsMs)
    {
      if emaFast.None? || emaSlow.None? {
        return;
      }
      var aFast := Alpha(fastPeriod);
      var aSlow := Alpha(slowPeriod);
      prevEmaFast := emaFast;
      prevEmaSlow := emaSlow;
      emaFast := Some(EmaStep(emaFast.value, closePrice, aFast));
      emaSlow := Some(EmaStep(emaSlow.value, closePrice, aSlow));
      lastClose := Some(closePrice);
      lastTs := Some(closeTsMs);
    }

    /** get_bias; the current price does not enter the result. */
    function GetBias(currentPrice: real, sideNeeded: int): (b: real)
      reads this
      ensures -1.0 <= b <= 1.0
      ensures emaFast.None? || emaSlow.None? ==> b == 0.0
      ensures sideNeeded == 0 ==> b == 0.0
    {
      if emaFast.None? || emaSlow.None? then 0.0
      else BiasOf(TrendTerm(emaFast.value, emaSlow.value, trendThresholdPct),
                  SlopeTerm(emaFast.value, prevEmaFast), sideNeeded)
    }
  }

  /** Seeded EMAs lie within the range of the closes used to build them. */
  lemma InitializedWithinCloses(closes: seq<real>, period: int, lookback: int, lo: real, hi: real)
    requires 1 <= period <= lookback <= |closes| && AllWithin(closes, lo, hi)
    ensures lo <= EmaRun(Sma(closes, period), closes[lookback..], Alpha(period)) <= hi
  {
    SmaWithin(closes, period, lo, hi);
    var rest := closes[lookback..];
    assert AllWithin(rest, lo, hi) by {
      forall i | 0 <= i < |rest| ensures lo <= rest[i] <= hi { assert rest[i] == closes[lookback + i]; }
    }
    EmaRunWithin(Sma(closes, period), rest, Alpha(period), lo, hi);
  }
}
