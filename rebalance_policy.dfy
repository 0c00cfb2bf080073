// The rebalance policy: soft/hard thresholds in base units, their widening or
// narrowing by the combined bias, and the none/partial/full decision guarded by
// hysteresis against flipping straight back after an action.
module RebalancePolicy {
  import opened Common

  /** 'base' thresholds are in base-asset units; any other unit string means a
      fraction of the spot notional. */
  datatype Units = Base | PercentOfNotional

  datatype Thresholds = Thresholds(units: Units, soft: real, hard: real)

  /** Lower bound on the mark price when converting notional-relative thresholds. */
  const PRICE_FLOOR: real := 0.000000000001

  function ToBaseUnits(units: Units, value: real, notional: real, markPrice: real): (r: real)
    ensures units == Base ==> r == value
    ensures units == PercentOfNotional ==> r * Max(markPrice, PRICE_FLOOR) == value * notional
  {
    if units == Base then value else (value * notional) / Max(markPrice, PRICE_FLOOR)
  }

  datatype Effective = Effective(soft: real, hard: real)

  /** The thresholds before bias, in base units. */
  function BaseThresholds(th: Thresholds, notional: real, markPrice: real): Effective
  {
    Effective(ToBaseUnits(th.units, th.soft, notional, markPrice),
              ToBaseUnits(th.units, th.hard, notional, markPrice))
  }

  /** Soft threshold after bias, before the floor at zero. */
  function BiasedSoft(baseSoft: real, combinedBias: real, biasStrength: real): real
  {
    baseSoft * (1.0 + Clamp(biasStrength, 0.0, 1.0) * Clamp(combinedBias, -1.0, 1.0))
  }

  /** Hard threshold after bias (half the effect of the soft one), before ordering. */
  function BiasedHard(baseHard: real, combinedBias: real, biasStrength: real): real
  {
    baseHard * (1.0 + 0.5 * Clamp(biasStrength, 0.0, 1.0) * Clamp(combinedBias, -1.0, 1.0))
  }

  /** compute_effective_thresholds: the soft threshold is floored at zero and the
      hard threshold is never below the soft one, whatever the inputs. */
  function EffectiveThresholds(th: Thresholds, notional: real, markPrice: real,
                               combinedBias: real, biasStrength: real): (e: Effective)
    ensures 0.0 <= e.soft <= e.hard
    ensures e.soft == 0.0 || e.soft == BiasedSoft(BaseThresholds(th, notional, markPrice).soft, combinedBias, biasStrength)
    ensures e.hard == e.soft || e.hard == BiasedHard(BaseThresholds(th, notional, markPrice).hard, combinedBias, biasStrength)
  {
    var b := BaseThresholds(th, notional, markPrice);
    var soft := Max(0.0, BiasedSoft(b.soft, combinedBias, biasStrength));
    Effective(soft, Max(soft, BiasedHard(b.hard, combinedBias, biasStrength)))
  }

  /** With no bias the base thresholds come through, floored and ordered. */
  lemma EffectiveWithoutBias(th: Thresholds, notional: real, markPrice: real, biasStrength: real)
    ensures var b := BaseThresholds(th, notional, markPrice);
            var e := EffectiveThresholds(th, notional, markPrice, 0.0, biasStrength);
            e.soft == Max(0.0, b.soft) && e.hard == Max(e.soft, b.hard)
  {
  }

  /** A larger combined bias never shrinks a non-negative soft threshold:
      a favourable bias lets the gap grow further before acting. */
  lemma {:induction false} SoftMonotoneInBias(th: Thresholds, notional: real, markPrice: real,
                                                bias1: real, bias2: real, biasStrength: real)
    requires BaseThresholds(th, notional, markPrice).soft >= 0.0
    requires bias1 <= bias2
    ensures EffectiveThresholds(th, notional, markPrice, bias1, biasStrength).soft
            <= EffectiveThresholds(th, notional, markPrice, bias2, biasStrength).soft
  {
    var s := BaseThresholds(th, notional, markPrice).soft;
    var bs := Clamp(biasStrength, 0.0, 1.0);
    var c1, c2 := Clamp(bias1, -1.0, 1.0), Clamp(bias2, -1.0, 1.0);
    MulMonotone(bs, c1, c2);
    MulMonotone(s, 1.0 + bs * c1, 1.0 + bs * c2);
    assert BiasedSoft(s, bias1, biasStrength) <= BiasedSoft(s, bias2, biasStrength);
  }

  /** Whatever the bias, a non-negative hard threshold is at least halved and at
      most multiplied by one and a half before it is ordered above the soft one. */
  lemma {:induction false} HardWithinHalfBand(th: Thresholds, notional: real, markPrice: real,
                                                combinedBias: real, biasStrength: real)
    requires BaseThresholds(th, notional, markPrice).hard >= 0.0
    ensures var h := BaseThresholds(th, notional, markPrice).hard;
            var e := EffectiveThresholds(th, notional, markPrice, combinedBias, biasStrength);
            0.5 * h <= e.hard && e.hard <= Max(e.soft, 1.5 * h)
  {
    BiasedHardBand(BaseThresholds(th, notional, markPrice).hard, combinedBias, biasStrength);
  }

  lemma BiasedHardBand(h: real, combinedBias: real, biasStrength: real)
    requires h >= 0.0
    ensures 0.5 * h <= BiasedHard(h, combinedBias, biasStrength) <= 1.5 * h
  {
    var bs, cb := Clamp(biasStrength, 0.0, 1.0), Clamp(combinedBias, -1.0, 1.0);
    UnitProduct(bs, cb);
    var k := 0.5 * bs * cb;
    assert -0.5 <= k <= 0.5;
    MulMonotone(h, 0.5, 1.0 + k);
    MulMonotone(h, 1.0 + k, 1.5);
  }

  lemma MulMonotone(a: real, x: real, y: real)
    requires a >= 0.0 && x <= y
    ensures a * x <= a * y
  {
    assert a * y - a * x == a * (y - x);
  }

  lemma UnitProduct(bs: real, cb: real)
    requires 0.0 <= bs <= 1.0 && -1.0 <= cb <= 1.0
    ensures -1.0 <= bs * cb <= 1.0
  {
    assert bs * cb == cb * bs;
    if cb >= 0.0 {
      MulMonotone(bs, cb, 1.0);
      assert bs * cb <= bs * 1.0;
      assert bs * 1.0 == bs;
      assert bs * cb <= 1.0;
      MulMonotone(bs, 0.0, cb);
    } else {
      MulMonotone(-cb, bs, 1.0);
      MulMonotone(bs, cb, 0.0);
      assert -cb * 1.0 == -cb && -cb * bs == -(cb * bs);
    }
  }

  datatype Action = NoAction | Partial | Full

  /** A decision: the action and the signed base quantity to trade
      (positive buys base, negative sells base). */
  datatype Decision = Decision(action: Action, target: real)

  /** The hysteresis memory: the threshold and side of the last action taken. */
  datatype Memory = Memory(threshold: Option<real>, side: Option<int>)

  /** The gap points back against the side of the last action but has not moved
      a hysteresis fraction of that action's threshold. */
  predicate Suppressed(gap: real, fraction: real, mem: Memory)
  {
    mem.threshold.Some? && mem.side.Some? &&
    Sign(gap) != 0 && Sign(gap) == -mem.side.value &&
    Abs(gap) < fraction * mem.threshold.value
  }

  predicate HardBreach(gap: real, effHard: real) { Abs(gap) >= effHard && effHard > 0.0 }

  predicate SoftBreach(gap: real, effSoft: real) { Abs(gap) >= effSoft && effSoft > 0.0 }

  /** decide, as a function of the hysteresis memory: the decision and the new memory. */
  function DecideSpec(gap: real, effSoft: real, effHard: real, ratio: real, fraction: real,
                      mem: Memory): (r: (Decision, Memory))
    ensures Suppressed(gap, fraction, mem) ==> r.0.action == NoAction
    ensures r.0.action == NoAction ==> r.0.target == 0.0 && r.1 == mem
    ensures r.0.action == NoAction <==>
              Suppressed(gap, fraction, mem) || (!HardBreach(gap, effHard) && !SoftBreach(gap, effSoft))
    ensures r.0.action == Full ==> r.0.target == -gap && HardBreach(gap, effHard)
                                   && r.1 == Memory(Some(effHard), Some(Sign(gap)))
    ensures r.0.action == Partial ==> r.0.target == -ratio * gap && SoftBreach(gap, effSoft)
                                      && !HardBreach(gap, effHard)
                                      && r.1 == Memory(Some(effSoft), Some(Sign(gap)))
    ensures r.0.action != NoAction ==> gap != 0.0
  {
    if Suppressed(gap, fraction, mem) then (Decision(NoAction, 0.0), mem)
    else if HardBreach(gap, effHard) then
      (Decision(Full, -gap), Memory(Some(effHard), Some(Sign(gap))))
    else if SoftBreach(gap, effSoft) then
      (Decision(Partial, -ratio * gap), Memory(Some(effSoft), Some(Sign(gap))))
    else (Decision(NoAction, 0.0), mem)
  }

  /** Whatever the policy does, the trade never adds to the gap: a non-zero target
      has the opposite sign of the gap, and it never overshoots zero. */
  lemma {:induction false} TradeOpposesGap(gap: real, effSoft: real, effHard: real, ratio: real,
                                             fraction: real, mem: Memory)
    requires 0.0 <= ratio <= 1.0
    ensures var d := DecideSpec(gap, effSoft, effHard, ratio, fraction, mem).0;
            Abs(gap + d.target) <= Abs(gap) && (d.target != 0.0 ==> Sign(d.target) == -Sign(gap))
  {
    var d := DecideSpec(gap, effSoft, effHard, ratio, fraction, mem).0;
    if d.action == Partial {
      assert gap + d.target == (1.0 - ratio) * gap;
      if gap > 0.0 {
        assert (1.0 - ratio) * gap <= gap;
        assert ratio * gap >= 0.0;
      } else {
        assert (1.0 - ratio) * gap >= gap;
        assert ratio * gap <= 0.0;
      }
    }
  }

  /** A full sell at threshold H is followed by no buy while the gap stays below
      fraction * H in magnitude, however low the new thresholds are. */
  lemma HysteresisAfterFull(gap1: real, gap2: real, soft1: real, hard1: real, soft2: real, hard2: real,
                            ratio: real, fraction: real, mem: Memory)
    requires HardBreach(gap1, hard1) && gap1 > 0.0 && !Suppressed(gap1, fraction, mem)
    requires gap2 < 0.0 && -gap2 < fraction * hard1
    ensures var first := DecideSpec(gap1, soft1, hard1, ratio, fraction, mem);
            var second := DecideSpec(gap2, soft2, hard2, ratio, fraction, first.1);
            first.0 == Decision(Full, -gap1) && second.0 == Decision(NoAction, 0.0) && second.1 == first.1
  {
  }

  /** Base thresholds soft 100 and hard 300 with no bias: a gap of 300 restores
      fully (sell 300) and a gap of 150 sells half of it, from a fresh memory. */
  lemma ThresholdScenarios(notional: real, markPrice: real, biasStrength: real, fraction: real)
    ensures var e := EffectiveThresholds(Thresholds(Base, 100.0, 300.0), notional, markPrice, 0.0, biasStrength);
            e == Effective(100.0, 300.0) &&
            DecideSpec(300.0, e.soft, e.hard, 0.5, fraction, Memory(None, None)).0 == Decision(Full, -300.0) &&
            DecideSpec(150.0, e.soft, e.hard, 0.5, fraction, Memory(None, None)).0 == Decision(Partial, -75.0)
  {
  }

  /** The policy object: the configured thresholds, clamped ratio and fraction,
      and the two hysteresis fields updated by each action. */
  class Policy {
    const thresholds: Thresholds
    const partialRatio: real
    const hysteresisFraction: real
    var lastThreshold: Option<real>
    var lastSide: Option<int>

    ghost predicate Valid()
      reads this
    {
      0.0 <= partialRatio <= 1.0 && 0.0 <= hysteresisFraction <= 1.0 &&
      (lastThreshold.Some? <==> lastSide.Some?) &&
      (lastThreshold.Some? ==> lastThreshold.value > 0.0) &&
      (lastSide.Some? ==> lastSide.value == 1 || lastSide.value == -1)
    }

    function Mem(): Memory
      reads this
    {
      Memory(lastThreshold, lastSide)
    }

    constructor (thresholds: Thresholds, partialRatio: real, hysteresisFraction: real)
      ensures Valid()
      ensures this.thresholds == thresholds
      ensures this.partialRatio == Clamp(partialRatio, 0.0, 1.0)
      ensures this.hysteresisFraction == Clamp(hysteresisFraction, 0.0, 1.0)
      ensures lastThreshold == None && lastSide == None
    {
      this.thresholds := thresholds;
      this.partialRatio := Clamp(partialRatio, 0.0, 1.0);
      this.hysteresisFraction := Clamp(hysteresisFraction, 0.0, 1.0);
      lastThreshold := None;
      lastSide := None;
    }

    method Decide(gap: real, effSoft: real, effHard: real) returns (d: Decision)
      requires Valid()
      modifies this
      ensures Valid()
      ensures (d, Mem()) == DecideSpec(gap, effSoft, effHard, partialRatio, hysteresisFraction, old(Mem()))
    {
      var sideNeeded := Sign(gap);
      if lastThreshold.Some? && lastSide.Some? {
        if sideNeeded != 0 && sideNeeded == -lastSide.value {
          var required := hysteresisFraction * lastThreshold.value;
          if Abs(gap) < required {
            return Decision(NoAction, 0.0);
          }
        }
      }
      if Abs(gap) >= effHard && effHard > 0.0 {
        lastThreshold := Some(effHard);
        lastSide := Some(sideNeeded);
        return Decision(Full, -gap);
      }
      if Abs(gap) >= effSoft && effSoft > 0.0 {
        lastThreshold := Some(effSoft);
        lastSide := Some(sideNeeded);
        return Decision(Partial, -partialRatio * gap);
      }
      return Decision(NoAction, 0.0);
    }
  }
}
