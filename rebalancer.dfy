// The spot rebalancer: one step reads the price, feeds a closed candle to the
// EMA bias, polls the fills cache, takes a delta snapshot and, when the net delta
// is off target, combines the EMA and fill-anchor biases, derives effective
// thresholds, asks the policy for a decision and routes it to the execution
// engine. A partial (soft) rebalance waits for a favourable anchor, but no longer
// than a configured number of seconds.
module Rebalancer {
  import opened Common
  import opened RebalancePolicy
  import opened RecentFills
  import opened TrendBias
  import opened ExecutionSpot
  import DE = DeltaEngine

  /** Where the EMA component of the combined bias comes from. */
  datatype BiasMode = EmaMode | ManualMode(override: real) | OtherMode

  /** The rebalancer's configuration: the soft anchor edge in basis points, the
      longest wait on a soft breach in seconds, the bias mode and weights, the
      bias strength handed to the policy, and whether a soft rebalance may fall
      back to a taker order. */
  datatype RebalancerConfig = RebalancerConfig(edgeBpsSoft: int, maxWaitOnSoft: int, mode: BiasMode,
                                               wEma: real, wAnchor: real, biasStrength: real,
                                               allowTakerOnSoft: bool)

  /** A closed kline: its close price and its closing time in milliseconds. */
  datatype Candle = Candle(close: real, ts: int)

  /** What a step did with a decision. */
  datatype Route =
    | Hold
    | MarketTrade(exec: Execution)
    | MakerTrade(exec: Execution)
    | WaitForAnchor(waited: real)

  /** What a step saw and did. */
  datatype StepReport =
    | NoPrice
    | Balanced
    | Decided(gap: real, combinedBias: real, thresholds: Effective, decision: Decision, route: Route)

  /** The edge of `edgeBps` basis points on a VWAP. */
  function Edge(edgeBps: int, vwap: real): real
  {
    edgeBps as real / 10000.0 * vwap
  }

  /** The anchor component: when the bot must sell, +1 if the price is at least the
      edge above the buy VWAP and -1 otherwise; when it must buy, +1 if the price
      is at least the edge below the sell VWAP and -1 otherwise; 0 without the
      relevant VWAP or without a side. */
  function AnchorTerm(edgeBps: int, buyVwap: Option<real>, sellVwap: Option<real>, price: real,
                      sideNeeded: int): (t: real)
    ensures t == 0.0 || t == 1.0 || t == -1.0
    ensures t == 0.0 <==> !(sideNeeded == 1 && buyVwap.Some?) && !(sideNeeded == -1 && sellVwap.Some?)
    ensures sideNeeded == 1 && buyVwap.Some? ==>
              (t == 1.0 <==> price >= buyVwap.value + Edge(edgeBps, buyVwap.value))
    ensures sideNeeded == -1 && sellVwap.Some? ==>
              (t == 1.0 <==> price <= sellVwap.value - Edge(edgeBps, sellVwap.value))
  {
    if sideNeeded == 1 then
      (if buyVwap.Some? then (if price >= buyVwap.value + Edge(edgeBps, buyVwap.value) then 1.0 else -1.0) else 0.0)
    else if sideNeeded == -1 then
      (if sellVwap.Some? then (if price <= sellVwap.value - Edge(edgeBps, sellVwap.value) then 1.0 else -1.0) else 0.0)
    else 0.0
  }

  /** With a non-negative edge and positive VWAPs, the anchor only favours selling
      at or above the average buy price, and buying at or below the average sell
      price. */
  lemma AnchorFavoursOnlyProfitableSide(edgeBps: int, buyVwap: real, sellVwap: real, price: real)
    requires edgeBps >= 0 && buyVwap > 0.0 && sellVwap > 0.0
    ensures AnchorTerm(edgeBps, Some(buyVwap), Some(sellVwap), price, 1) == 1.0 ==> price >= buyVwap
    ensures AnchorTerm(edgeBps, Some(buyVwap), Some(sellVwap), price, -1) == 1.0 ==> price <= sellVwap
  {
    MulNonneg(edgeBps as real / 10000.0, buyVwap);
    MulNonneg(edgeBps as real / 10000.0, sellVwap);
  }

  /** The EMA component by mode: the EMA bias, the manual override, or nothing. */
  function EmaComponent(mode: BiasMode, emaBias: real): real
  {
    match mode
    case EmaMode => emaBias
    case ManualMode(o) => o
    case OtherMode => 0.0
  }

  /** The weighted sum of the two components, clamped to [-1, 1]. */
  function CombinedBias(cfg: RebalancerConfig, emaB: real, anchorB: real): (b: real)
    ensures -1.0 <= b <= 1.0
    ensures -1.0 <= cfg.wEma * emaB + cfg.wAnchor * anchorB <= 1.0 ==> b == cfg.wEma * emaB + cfg.wAnchor * anchorB
  {
    var combined := cfg.wEma * emaB + cfg.wAnchor * anchorB;
    if combined > 1.0 then 1.0 else if combined < -1.0 then -1.0 else combined
  }

  /** With non-negative weights that add up to at most 1, and both components in
      [-1, 1], the clamp never bites. */
  lemma CombinedBiasUnclipped(cfg: RebalancerConfig, emaB: real, anchorB: real)
    requires cfg.wEma >= 0.0 && cfg.wAnchor >= 0.0 && cfg.wEma + cfg.wAnchor <= 1.0
    requires -1.0 <= emaB <= 1.0 && -1.0 <= anchorB <= 1.0
    ensures CombinedBias(cfg, emaB, anchorB) == cfg.wEma * emaB + cfg.wAnchor * anchorB
  {
    var we, wa := cfg.wEma, cfg.wAnchor;
    WeightedWithin(we, emaB);
    WeightedWithin(wa, anchorB);
    BoundedSum(we * emaB, wa * anchorB, we, wa);
  }

  lemma BoundedSum(p: real, q: real, u: real, w: real)
    requires -u <= p <= u && -w <= q <= w && u + w <= 1.0
    ensures -1.0 <= p + q <= 1.0
  {
  }

  lemma WeightedWithin(w: real, x: real)
    requires w >= 0.0 && -1.0 <= x <= 1.0
    ensures -w <= w * x <= w
  {
    MulNonneg(w, 1.0 - x);
    MulNonneg(w, x + 1.0);
  }

  /** The anchor gate of a soft rebalance: selling needs the price at least the
      edge above the buy VWAP, buying at least the edge below the sell VWAP; with
      no such VWAP the gate is open. */
  predicate AnchorOk(edgeBps: int, buyVwap: Option<real>, sellVwap: Option<real>, price: real, side: Side)
  {
    match side
    case Sell => buyVwap.None? || price >= buyVwap.value + Edge(edgeBps, buyVwap.value)
    case Buy => sellVwap.None? || price <= sellVwap.value - Edge(edgeBps, sellVwap.value)
  }

  /** The gate is open exactly when the anchor term for the same side does not
      count against acting. */
  lemma AnchorGateMatchesTerm(edgeBps: int, buyVwap: Option<real>, sellVwap: Option<real>, price: real)
    ensures AnchorOk(edgeBps, buyVwap, sellVwap, price, Sell) <==> AnchorTerm(edgeBps, buyVwap, sellVwap, price, 1) >= 0.0
    ensures AnchorOk(edgeBps, buyVwap, sellVwap, price, Buy) <==> AnchorTerm(edgeBps, buyVwap, sellVwap, price, -1) >= 0.0
  {
  }

  /** _spot_notional_quote: the base balance valued at the price; a failed answer,
      or a balance that does not convert, values it at 0. */
  function SpotNotional(resp: DE.BalanceResponse, baseSymbol: string, price: real): (n: real)
    ensures resp.NoBalances? || resp.retCode != 0 ==> n == 0.0
    ensures resp.Balances? && resp.retCode == 0 ==>
              var entries := DE.Entries(resp.accounts);
              (DE.Convertible(entries, baseSymbol) ==> n == DE.MatchingTotal(entries, baseSymbol) * price) &&
              (!DE.Convertible(entries, baseSymbol) ==> n == 0.0)
  {
    if resp.NoBalances? || resp.retCode != 0 then 0.0
    else
      var entries := DE.Entries(resp.accounts);
      var sc := DE.ScanBalances(entries, baseSymbol);
      DE.ScanCompleteIffConvertible(entries, baseSymbol);
      assert DE.Convertible(entries, baseSymbol) ==> sc.sum == DE.MatchingTotal(entries, baseSymbol) by {
        if DE.Convertible(entries, baseSymbol) {
          DE.ScanIsTotalWhenConvertible(entries, baseSymbol);
        }
      }
      if sc.complete then sc.sum * price else 0.0
  }

  /** The side of a trade of `target` base units: selling iff it is negative. */
  function TradeSide(target: real): (s: Side)
    ensures s == Sell <==> target < 0.0
  {
    if target < 0.0 then Sell else Buy
  }

  /** A trade decided by the policy always sells into a positive gap and buys into
      a negative one, for the full gap or the partial fraction of it. */
  lemma TradeSideOpposesGap(gap: real, ratio: real)
    requires gap != 0.0 && 0.0 < ratio <= 1.0
    ensures TradeSide(-gap) == Sell <==> gap > 0.0
    ensures TradeSide(-ratio * gap) == Sell <==> gap > 0.0
    ensures Abs(-ratio * gap) == ratio * Abs(gap)
  {
    if gap > 0.0 {
      MulNonneg(ratio, gap);
      assert ratio * gap > 0.0;
    } else {
      MulNonneg(ratio, -gap);
      assert ratio * -gap > 0.0;
    }
  }

  /** The gate of a soft rebalance opens on a favourable anchor or once the wait
      started at `start` has lasted the configured maximum. */
  predicate SoftGateOpen(cfg: RebalancerConfig, v: Vwaps, px: real, side: Side, start: real, now: real)
  {
    AnchorOk(cfg.edgeBpsSoft, v.buyVwap, v.sellVwap, px, side) || now - start >= cfg.maxWaitOnSoft as real
  }

  /** The wait start after a soft breach: the one already running, or now. */
  function WaitStart(running: Option<real>, now: real): (s: real)
    ensures running.Some? ==> s == running.value
    ensures running.None? ==> s == now
  {
    if running.Some? then running.value else now
  }

  /** How one evaluation of a non-zero gap comes out: the combined bias of the
      EMA component and the anchor term over the window's VWAPs, the effective
      thresholds from the spot notional, and the policy's decision with its new
      hysteresis memory. */
  predicate Evaluated(cfg: RebalancerConfig, th: Thresholds, ratio: real, fraction: real, gap: real, px: real,
                      emaBias: real, v: Vwaps, notional: real, mem: Memory,
                      bias: real, eff: Effective, decision: Decision, newMem: Memory)
  {
    bias == CombinedBias(cfg, EmaComponent(cfg.mode, emaBias),
                         AnchorTerm(cfg.edgeBpsSoft, v.buyVwap, v.sellVwap, px, Sign(gap))) &&
    eff == EffectiveThresholds(th, notional, px, bias, cfg.biasStrength) &&
    (decision, newMem) == DecideSpec(gap, eff.soft, eff.hard, ratio, fraction, mem)
  }

  /** How a partial decision for `target` is routed when the soft wait started at
      `start`, and the wait start afterwards: maker-first execution once the gate
      opens, clearing the wait; otherwise no order, and the wait keeps its start. */
  function SoftRoute(cfg: RebalancerConfig, exec: ExecConfig, v: Vwaps, px: real, target: real, start: real,
                     now: real, makerAnswers: seq<OrderResponse>, marketAnswer: OrderResponse): (r: (Route, Option<real>))
    ensures r.0.MakerTrade? <==> SoftGateOpen(cfg, v, px, TradeSide(target), start, now)
    ensures r.1.None? <==> r.0.MakerTrade?
  {
    var side := TradeSide(target);
    if SoftGateOpen(cfg, v, px, side, start, now)
    then (MakerTrade(MakerThenEscalateSpec(exec, side, Abs(target), px, cfg.allowTakerOnSoft,
                                          makerAnswers, marketAnswer)), None)
    else (WaitForAnchor(now - start), Some(start))
  }

  /** The rebalancer: its sub-engines, its configuration and the soft-wait timer. */
  class SpotRebalancer {
    const policy: Policy
    const emaBias: EmaTrendBias
    const fills: FillsAnchor
    const engine: DE.DeltaEngine
    const exec: ExecConfig
    const cfg: RebalancerConfig
    var lastSoftWaitStart: Option<real>

    ghost predicate Valid()
      reads this, policy, emaBias, fills
    {
      policy.Valid() && emaBias.Valid() && fills.Valid()
    }

    constructor (policy: Policy, emaBias: EmaTrendBias, fills: FillsAnchor, engine: DE.DeltaEngine,
                 exec: ExecConfig, cfg: RebalancerConfig)
      requires policy.Valid() && emaBias.Valid() && fills.Valid()
      ensures Valid()
      ensures this.policy == policy && this.emaBias == emaBias && this.fills == fills
      ensures this.engine == engine && this.exec == exec && this.cfg == cfg
      ensures lastSoftWaitStart == None
    {
      this.policy := policy;
      this.emaBias := emaBias;
      this.fills := fills;
      this.engine := engine;
      this.exec := exec;
      this.cfg := cfg;
      lastSoftWaitStart := None;
    }

    /** The cutoff of the fills window at time `now`. */
    function Cutoff(now: real): real
    {
      now - fills.windowSeconds as real
    }

    /** _combined_bias at time `now`: reading the anchor prunes the fills cache. */
    method CombinedBiasAt(price: real, sideNeeded: int, now: real) returns (b: real)
      requires Valid()
      modifies fills`fills
      ensures Valid()
      ensures fills.fills == Prune(old(fills.fills), Cutoff(now))
      ensures var v := VwapsOf(old(fills.fills), Cutoff(now));
              b == CombinedBias(cfg, EmaComponent(cfg.mode, emaBias.GetBias(price, sideNeeded)),
                                AnchorTerm(cfg.edgeBpsSoft, v.buyVwap, v.sellVwap, price, sideNeeded))
      ensures -1.0 <= b <= 1.0
    {
      var emaB := EmaComponent(cfg.mode, emaBias.GetBias(price, sideNeeded));
      ghost var before := fills.fills;
      ghost var cut := Cutoff(now);
      assert cut == now - fills.windowSeconds as real;
      var anchor := fills.GetAnchor(now);
      assert fills.fills == Prune(before, cut);
      ghost var v := VwapsOf(before, cut);
      assert anchor.buyVwap == v.buyVwap && anchor.sellVwap == v.sellVwap;
      assert emaB == EmaComponent(cfg.mode, emaBias.GetBias(price, sideNeeded));
      var anchorB := AnchorTerm(cfg.edgeBpsSoft, anchor.buyVwap, anchor.sellVwap, price, sideNeeded);
      b := CombinedBias(cfg, emaB, anchorB);
    }

    /** The first part of step: a closed candle feeds the EMAs, then the fills
        cache is polled. */
    method Refresh(closed: Option<Candle>, now: real, executions: ExecResponse)
      requires Valid()
      modifies emaBias, fills
      ensures Valid()
      ensures emaBias.State() == if closed.Some?
                                 then CandleStep(old(emaBias.State()), closed.value.close, closed.value.ts,
                                                 emaBias.fastPeriod, emaBias.slowPeriod)
                                 else old(emaBias.State())
      ensures fills.State() == PollSpec(old(fills.State()), old(fills.lastPollTime), fills.pollInterval,
                                        executions, now, fills.windowSeconds, fills.maxCached)
      ensures fills.lastPollTime == if now - old(fills.lastPollTime) < fills.pollInterval then old(fills.lastPollTime) else now
    {
      if closed.Some? {
        emaBias.OnClosedCandle(closed.value.close, closed.value.ts);
      }
      fills.FetchNewFills(now, executions);
    }

    /** The decision part of step for a non-zero gap: combined bias, effective
        thresholds from the spot notional, and the policy's decision. */
    method Evaluate(px: real, gap: real, now: real, notionalBalances: DE.BalanceResponse)
      returns (bias: real, eff: Effective, decision: Decision)
      requires Valid()
      modifies fills`fills, policy
      ensures Valid()
      ensures fills.fills == Prune(old(fills.fills), Cutoff(now))
      ensures Evaluated(cfg, policy.thresholds, policy.partialRatio, policy.hysteresisFraction, gap, px,
                        emaBias.GetBias(px, Sign(gap)), VwapsOf(old(fills.fills), Cutoff(now)),
                        SpotNotional(notionalBalances, engine.baseSymbol, px), old(policy.Mem()),
                        bias, eff, decision, policy.Mem())
    {
      var sideNeeded := if gap > 0.0 then 1 else if gap < 0.0 then -1 else 0;
      bias := CombinedBiasAt(px, sideNeeded, now);
      var notional := SpotNotional(notionalBalances, engine.baseSymbol, px);
      eff := EffectiveThresholds(policy.thresholds, notional, px, bias, cfg.biasStrength);
      decision := policy.Decide(gap, eff.soft, eff.hard);
    }

    /** The routing of a full decision: a market order for the whole target,
        and the soft wait is cleared. */
    method DispatchFull(target: real, marketAnswer: OrderResponse) returns (route: Route)
      modifies this`lastSoftWaitStart
      ensures route == MarketTrade(Market(exec, TradeSide(target), Abs(target), marketAnswer))
      ensures lastSoftWaitStart == None
    {
      var qty := Abs(target);
      var side := if target < 0.0 then Sell else Buy;
      var e := Market(exec, side, qty, marketAnswer);
      lastSoftWaitStart := None;
      route := MarketTrade(e);
    }

    /** The routing of a partial decision: maker-first execution once the anchor
        gate opens or the soft wait is over; otherwise the wait keeps running
        from its first start. */
    method DispatchPartial(px: real, now: real, target: real, makerAnswers: seq<OrderResponse>,
                           marketAnswer: OrderResponse)
      returns (route: Route)
      requires Valid()
      modifies this`lastSoftWaitStart, fills`fills
      ensures Valid()
      ensures fills.fills == Prune(old(fills.fills), Cutoff(now))
      ensures (route, lastSoftWaitStart) == SoftRoute(cfg, exec, VwapsOf(old(fills.fills), Cutoff(now)), px, target,
                         WaitStart(old(lastSoftWaitStart), now), now, makerAnswers, marketAnswer)
    {
      var qty := Abs(target);
      var side := if target < 0.0 then Sell else Buy;
      var maxWait := cfg.maxWaitOnSoft;
      if lastSoftWaitStart.None? {
        lastSoftWaitStart := Some(now);
      }
      var waited := now - lastSoftWaitStart.value;
      assert waited == now - WaitStart(old(lastSoftWaitStart), now);
      var anchor := fills.GetAnchor(now);
      ghost var v := VwapsOf(old(fills.fills), Cutoff(now));
      assert anchor.buyVwap == v.buyVwap && anchor.sellVwap == v.sellVwap;
      var anchorOk := AnchorOk(cfg.edgeBpsSoft, anchor.buyVwap, anchor.sellVwap, px, side);
      assert side == TradeSide(target) && qty == Abs(target);
      assert anchorOk || waited >= maxWait as real <==> SoftGateOpen(cfg, v, px, side, WaitStart(old(lastSoftWaitStart), now), now);
      if anchorOk || waited >= maxWait as real {
        var e := MakerThenEscalate(exec, side, qty, px, cfg.allowTakerOnSoft, makerAnswers, marketAnswer);
        lastSoftWaitStart := None;
        return MakerTrade(e);
      }
      return WaitForAnchor(waited);
    }

    /** The answer to one gap: a zero gap clears the soft wait; any other gets
        the combined bias, the effective thresholds and the policy's decision,
        then the route that decision takes. */
    method Decide(px: real, gap: real, now: real, notionalBalances: DE.BalanceResponse,
                  makerAnswers: seq<OrderResponse>, marketAnswer: OrderResponse,
                  ghost polled: seq<Fill>, ghost mem0: Memory, ghost wait0: Option<real>)
      returns (rep: StepReport)
      requires Valid()
      requires fills.fills == polled && policy.Mem() == mem0 && lastSoftWaitStart == wait0
      modifies this`lastSoftWaitStart, fills`fills, policy
      ensures Valid()
      ensures (rep == Balanced || rep.Decided?) && (rep == Balanced <==> gap == 0.0) && (rep.Decided? ==> rep.gap == gap)
      ensures rep == Balanced ==>
                lastSoftWaitStart == None && policy.Mem() == mem0 && fills.fills == polled
      ensures rep.Decided? ==> fills.fills == Prune(polled, Cutoff(now))
      ensures rep.Decided? ==> Evaluated(cfg, policy.thresholds, policy.partialRatio, policy.hysteresisFraction, gap, px,
                        emaBias.GetBias(px, Sign(gap)), VwapsOf(polled, Cutoff(now)),
                        SpotNotional(notionalBalances, engine.baseSymbol, px), mem0,
                        rep.combinedBias, rep.thresholds, rep.decision, policy.Mem())
      ensures rep.Decided? && rep.decision.action == NoAction ==> rep.route == Hold && lastSoftWaitStart == None
      ensures rep.Decided? && rep.decision.action == Full ==>
                rep.route == MarketTrade(Market(exec, TradeSide(rep.decision.target), Abs(rep.decision.target), marketAnswer)) &&
                lastSoftWaitStart == None
      ensures rep.Decided? && rep.decision.action == Partial ==>
                (rep.route, lastSoftWaitStart) == SoftRoute(cfg, exec, VwapsOf(polled, Cutoff(now)), px, rep.decision.target,
                           WaitStart(wait0, now), now, makerAnswers, marketAnswer)
    {
      if gap == 0.0 {
        lastSoftWaitStart := None;
        return Balanced;
      }
      ghost var before := fills.fills;
      ghost var ema := emaBias.GetBias(px, Sign(gap));
      var bias, eff, decision := Evaluate(px, gap, now, notionalBalances);
      ghost var mem1 := policy.Mem();
      ghost var evaluated := Evaluated(cfg, policy.thresholds, policy.partialRatio, policy.hysteresisFraction, gap, px,
                                       ema, VwapsOf(before, Cutoff(now)),
                                       SpotNotional(notionalBalances, engine.baseSymbol, px), mem0,
                                       bias, eff, decision, mem1);
      assert evaluated;
      if decision.action == NoAction {
        lastSoftWaitStart := None;
        rep := Decided(gap, bias, eff, decision, Hold);
      } else if decision.action == Full {
        var route := DispatchFull(decision.target, marketAnswer);
        rep := Decided(gap, bias, eff, decision, route);
      } else {
        PruneKeepsWindow(before, Cutoff(now));
        PruneIdempotent(before, Cutoff(now));
        assert VwapsOf(fills.fills, Cutoff(now)) == VwapsOf(before, Cutoff(now));
        var route := DispatchPartial(px, now, decision.target, makerAnswers, marketAnswer);
        rep := Decided(gap, bias, eff, decision, route);
      }
      assert policy.Mem() == mem1 && emaBias.GetBias(px, Sign(gap)) == ema;
    }

    /** step once the price `px` is known. */
    method StepAt(px: real, closed: Option<Candle>, now: real, executions: ExecResponse,
                  balances: DE.BalanceResponse, positions: DE.PositionResponse,
                  notionalBalances: DE.BalanceResponse,
                  makerAnswers: seq<OrderResponse>, marketAnswer: OrderResponse)
      returns (rep: StepReport)
      requires Valid()
      modifies this, policy, emaBias, fills
      ensures Valid()
      ensures rep == Balanced || rep.Decided?
      // the closed candle feeds the EMAs
      ensures emaBias.State() == if closed.Some?
                                 then CandleStep(old(emaBias.State()), closed.value.close, closed.value.ts,
                                                 emaBias.fastPeriod, emaBias.slowPeriod)
                                 else old(emaBias.State())
      // the fills cache is polled, then pruned whenever the anchor is read
      ensures var polled := PollSpec(old(fills.State()), old(fills.lastPollTime), fills.pollInterval,
                                     executions, now, fills.windowSeconds, fills.maxCached);
              fills.lastExecId == polled.lastExecId &&
              fills.lastPollTime == (if now - old(fills.lastPollTime) < fills.pollInterval then old(fills.lastPollTime) else now) &&
              fills.fills == (if rep.Balanced? then polled.fills else Prune(polled.fills, Cutoff(now)))
      // a zero gap clears the soft wait and decides nothing
      ensures var snap := DE.SnapshotOf(engine.baseSymbol, engine.desiredNetDeltaBase, Some(px), balances, positions);
              (rep == Balanced <==> snap.netBaseDelta - snap.desiredNetDeltaBase == 0.0) &&
              (rep.Decided? ==> rep.gap == snap.netBaseDelta - snap.desiredNetDeltaBase)
      ensures rep == Balanced ==> lastSoftWaitStart == None && policy.Mem() == old(policy.Mem())
      // otherwise: combined bias, effective thresholds and the policy's decision
      ensures rep.Decided? ==>
                rep.gap != 0.0 &&
                Evaluated(cfg, policy.thresholds, policy.partialRatio, policy.hysteresisFraction, rep.gap, px,
                          emaBias.GetBias(px, Sign(rep.gap)),
                          VwapsOf(PollSpec(old(fills.State()), old(fills.lastPollTime), fills.pollInterval,
                                           executions, now, fills.windowSeconds, fills.maxCached).fills, Cutoff(now)),
                          SpotNotional(notionalBalances, engine.baseSymbol, px), old(policy.Mem()),
                          rep.combinedBias, rep.thresholds, rep.decision, policy.Mem())
      // no action: nothing is placed and the wait is cleared
      ensures rep.Decided? && rep.decision.action == NoAction ==> rep.route == Hold && lastSoftWaitStart == None
      // full: a market order for the whole target, and the wait is cleared
      ensures rep.Decided? && rep.decision.action == Full ==>
                rep.route == MarketTrade(Market(exec, TradeSide(rep.decision.target), Abs(rep.decision.target), marketAnswer)) &&
                lastSoftWaitStart == None
      // partial: maker-first once the anchor allows it or the wait is over; else keep waiting
      ensures rep.Decided? && rep.decision.action == Partial ==>
                (rep.route, lastSoftWaitStart) == SoftRoute(cfg, exec,
                           VwapsOf(PollSpec(old(fills.State()), old(fills.lastPollTime), fills.pollInterval,
                                            executions, now, fills.windowSeconds, fills.maxCached).fills, Cutoff(now)),
                           px, rep.decision.target, WaitStart(old(lastSoftWaitStart), now), now,
                           makerAnswers, marketAnswer)
    {
      Refresh(closed, now, executions);
      ghost var emaAfter := emaBias.State();
      ghost var execId := fills.lastExecId;
      ghost var pollTime := fills.lastPollTime;
      var snap := engine.Snapshot(Some(px), balances, positions);
      var gap := snap.netBaseDelta - snap.desiredNetDeltaBase;
      rep := Decide(px, gap, now, notionalBalances, makerAnswers, marketAnswer,
                    PollSpec(old(fills.State()), old(fills.lastPollTime), fills.pollInterval,
                             executions, now, fills.windowSeconds, fills.maxCached).fills,
                    old(policy.Mem()), old(lastSoftWaitStart));
      assert emaBias.State() == emaAfter && fills.lastExecId == execId && fills.lastPollTime == pollTime;
    }

    /** step. The gateway's answers are parameters: the price and the closed candle
        from the market stream, the execution history for the fills poll, the
        balances and positions for the snapshot, the second balance answer for
        the spot notional, and the answers to the maker placements and to the
        market order. */
    method Step(price: Option<real>, closed: Option<Candle>, now: real, executions: ExecResponse,
                balances: DE.BalanceResponse, positions: DE.PositionResponse,
                notionalBalances: DE.BalanceResponse,
                makerAnswers: seq<OrderResponse>, marketAnswer: OrderResponse)
      returns (rep: StepReport)
      requires Valid()
      modifies this, policy, emaBias, fills
      ensures Valid()
      // without a price nothing happens
      ensures price.None? ==>
                rep == NoPrice && lastSoftWaitStart == old(lastSoftWaitStart) &&
                policy.Mem() == old(policy.Mem()) && emaBias.State() == old(emaBias.State()) &&
                fills.State() == old(fills.State()) && fills.lastPollTime == old(fills.lastPollTime)
      ensures price.Some? ==> rep != NoPrice
      // the closed candle feeds the EMAs
      ensures price.Some? ==>
                emaBias.State() == if closed.Some?
                                   then CandleStep(old(emaBias.State()), closed.value.close, closed.value.ts,
                                                   emaBias.fastPeriod, emaBias.slowPeriod)
                                   else old(emaBias.State())
      // the fills cache is polled, then pruned whenever the anchor is read
      ensures price.Some? ==>
                var polled := PollSpec(old(fills.State()), old(fills.lastPollTime), fills.pollInterval,
                                       executions, now, fills.windowSeconds, fills.maxCached);
                fills.lastExecId == polled.lastExecId &&
                fills.lastPollTime == (if now - old(fills.lastPollTime) < fills.pollInterval then old(fills.lastPollTime) else now) &&
                fills.fills == (if rep.Balanced? then polled.fills else Prune(polled.fills, Cutoff(now)))
      // a zero gap clears the soft wait and decides nothing
      ensures price.Some? ==>
                var snap := DE.SnapshotOf(engine.baseSymbol, engine.desiredNetDeltaBase, price, balances, positions);
                (rep == Balanced <==> snap.netBaseDelta - snap.desiredNetDeltaBase == 0.0) &&
                (rep.Decided? ==> rep.gap == snap.netBaseDelta - snap.desiredNetDeltaBase)
      ensures rep == Balanced ==> lastSoftWaitStart == None && policy.Mem() == old(policy.Mem())
      // otherwise: combined bias, effective thresholds and the policy's decision
      ensures rep.Decided? ==>
                price.Some? && rep.gap != 0.0 &&
                Evaluated(cfg, policy.thresholds, policy.partialRatio, policy.hysteresisFraction, rep.gap, price.value,
                          emaBias.GetBias(price.value, Sign(rep.gap)),
                          VwapsOf(PollSpec(old(fills.State()), old(fills.lastPollTime), fills.pollInterval,
                                           executions, now, fills.windowSeconds, fills.maxCached).fills, Cutoff(now)),
                          SpotNotional(notionalBalances, engine.baseSymbol, price.value), old(policy.Mem()),
                          rep.combinedBias, rep.thresholds, rep.decision, policy.Mem())
      // no action: nothing is placed and the wait is cleared
      ensures rep.Decided? && rep.decision.action == NoAction ==> rep.route == Hold && lastSoftWaitStart == None
      // full: a market order for the whole target, and the wait is cleared
      ensures rep.Decided? && rep.decision.action == Full ==>
                rep.route == MarketTrade(Market(exec, TradeSide(rep.decision.target), Abs(rep.decision.target), marketAnswer)) &&
                lastSoftWaitStart == None
      // partial: maker-first once the anchor allows it or the wait is over; else keep waiting
      ensures rep.Decided? && rep.decision.action == Partial ==>
                (rep.route, lastSoftWaitStart) == SoftRoute(cfg, exec,
                           VwapsOf(PollSpec(old(fills.State()), old(fills.lastPollTime), fills.pollInterval,
                                            executions, now, fills.windowSeconds, fills.maxCached).fills, Cutoff(now)),
                           price.value, rep.decision.target, WaitStart(old(lastSoftWaitStart), now), now,
                           makerAnswers, marketAnswer)
    {
      if price.None? {
        return NoPrice;
      }
      rep := StepAt(price.value, closed, now, executions, balances, positions, notionalBalances,
                    makerAnswers, marketAnswer);
    }
  }
}
