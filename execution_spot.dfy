// The spot execution engine: clamping of trade sizes, immediate market orders,
// a single resting limit order, and the maker-first loop that re-places a
// resting order until one is accepted or the chase deadline passes, then
// optionally falls back to a market order.
module ExecutionSpot {
  import opened Common

  datatype TimeInForce = PostOnly | GoodTillCancel

  /** An order submitted to the exchange gateway. */
  datatype Order =
    | MarketOrder(side: Side, qty: real)
    | LimitOrder(side: Side, qty: real, price: real, tif: TimeInForce)

  /** The gateway's answer to a placement: nothing, or a return code. */
  datatype OrderResponse = NoAnswer | Answer(retCode: int)

  predicate Accepted(resp: OrderResponse) { resp.Answer? && resp.retCode == 0 }

  datatype ExecConfig = ExecConfig(postOnly: bool, chaseSeconds: real, minTradeBase: real, maxTradeBase: real)

  /** What one execution call did: whether it reports success, and the orders
      it submitted, in order. */
  datatype Execution = Execution(ok: bool, orders: seq<Order>)

  /** _clamp_qty: the magnitude of the requested size, capped at the maximum and
      raised to the minimum. */
  function ClampQty(cfg: ExecConfig, qty: real): (q: real)
    ensures q >= cfg.minTradeBase
    ensures cfg.minTradeBase <= cfg.maxTradeBase ==> q <= cfg.maxTradeBase
    ensures cfg.minTradeBase <= Abs(qty) <= cfg.maxTradeBase ==> q == Abs(qty)
    ensures q == cfg.minTradeBase || q == cfg.maxTradeBase || q == Abs(qty)
  {
    Max(cfg.minTradeBase, Min(cfg.maxTradeBase, Abs(qty)))
  }

  /** Clamping an already clamped size changes nothing, whatever the bounds. */
  lemma ClampIdempotent(cfg: ExecConfig, qty: real)
    ensures ClampQty(cfg, ClampQty(cfg, qty)) == ClampQty(cfg, qty)
  {
  }

  function Tif(cfg: ExecConfig): (t: TimeInForce)
    ensures t == PostOnly <==> cfg.postOnly
  {
    if cfg.postOnly then PostOnly else GoodTillCancel
  }

  /** market: nothing is submitted when the clamped size is not positive;
      otherwise one market order of the clamped size, successful iff accepted. */
  function Market(cfg: ExecConfig, side: Side, qty: real, resp: OrderResponse): (e: Execution)
    ensures ClampQty(cfg, qty) <= 0.0 ==> e == Execution(false, [])
    ensures ClampQty(cfg, qty) > 0.0 ==>
              e.orders == [MarketOrder(side, ClampQty(cfg, qty))] && (e.ok <==> Accepted(resp))
  {
    var q := ClampQty(cfg, qty);
    if q <= 0.0 then Execution(false, [])
    else Execution(Accepted(resp), [MarketOrder(side, q)])
  }

  /** post_only_limit_once: one limit order at the given price for the minimum
      trade size (not the requested one), post-only iff configured. */
  function PostOnlyLimitOnce(cfg: ExecConfig, side: Side, bestPx: real, resp: OrderResponse): (e: Execution)
    ensures e.orders == [LimitOrder(side, cfg.minTradeBase, bestPx, Tif(cfg))]
    ensures e.ok <==> Accepted(resp)
  {
    Execution(Accepted(resp), [LimitOrder(side, cfg.minTradeBase, bestPx, Tif(cfg))])
  }

  function Repeat(o: Order, n: nat): (r: seq<Order>)
    ensures |r| == n && forall i :: 0 <= i < n ==> r[i] == o
  {
    if n == 0 then [] else Repeat(o, n - 1) + [o]
  }

  /** One more copy in front is one more copy. */
  lemma RepeatCons(o: Order, n: nat)
    ensures [o] + Repeat(o, n) == Repeat(o, n + 1)
  {
    assert forall i :: 0 <= i < n + 1 ==> ([o] + Repeat(o, n))[i] == o;
  }

  /** No answer before index `k` accepted the placement. */
  predicate NoneAcceptedBefore(answers: seq<OrderResponse>, k: int)
    requires 0 <= k <= |answers|
  {
    forall j :: 0 <= j < k ==> !Accepted(answers[j])
  }

  /** The attempts of the maker loop, one per answer: the first accepted one ends
      the loop with success; with none accepted the `fallback` follows. */
  function MakerAttempts(limit: Order, answers: seq<OrderResponse>, fallback: Execution): Execution
    decreases |answers|
  {
    if answers == [] then fallback
    else if Accepted(answers[0]) then Execution(true, [limit])
    else
      var rest := MakerAttempts(limit, answers[1..], fallback);
      Execution(rest.ok, [limit] + rest.orders)
  }

  /** maker_then_escalate as a function of the gateway's answers. */
  function MakerThenEscalateSpec(cfg: ExecConfig, side: Side, qty: real, bestPx: real, allowTaker: bool,
                                 makerAnswers: seq<OrderResponse>, marketAnswer: OrderResponse): Execution
  {
    var q := ClampQty(cfg, qty);
    if q <= 0.0 then Execution(false, [])
    else MakerAttempts(LimitOrder(side, q, bestPx, Tif(cfg)), makerAnswers,
                       if allowTaker then Market(cfg, side, q, marketAnswer) else Execution(false, []))
  }

  /** The first accepted maker order ends the call with success after k + 1
      identical limit orders, and no market order. */
  lemma {:induction false} MakerFirstAccepted(limit: Order, answers: seq<OrderResponse>, fallback: Execution, k: nat)
    requires k < |answers| && Accepted(answers[k]) && NoneAcceptedBefore(answers, k)
    ensures MakerAttempts(limit, answers, fallback) == Execution(true, Repeat(limit, k + 1))
    decreases k
  {
    if k > 0 {
      assert !Accepted(answers[0]);
      MakerFirstAccepted(limit, answers[1..], fallback, k - 1);
      RepeatCons(limit, k);
    } else {
      assert Repeat(limit, 1) == [limit];
    }
  }

  /** The attempts from answer `i` on: one limit order, then either success or
      the attempts from answer `i + 1` on. */
  lemma MakerFrom(limit: Order, answers: seq<OrderResponse>, fallback: Execution, i: int)
    requires 0 <= i < |answers|
    ensures MakerAttempts(limit, answers[i..], fallback) ==
            if Accepted(answers[i]) then Execution(true, [limit])
            else Execution(MakerAttempts(limit, answers[i + 1..], fallback).ok,
                           [limit] + MakerAttempts(limit, answers[i + 1..], fallback).orders)
  {
    assert answers[i..][0] == answers[i] && answers[i..][1..] == answers[i + 1..];
  }

  /** With no maker order accepted, every attempt placed a limit order and the
      fallback follows them. */
  lemma {:induction false} MakerNoneAccepted(limit: Order, answers: seq<OrderResponse>, fallback: Execution)
    requires NoneAcceptedBefore(answers, |answers|)
    ensures MakerAttempts(limit, answers, fallback) == Execution(fallback.ok, Repeat(limit, |answers|) + fallback.orders)
    decreases |answers|
  {
    if answers != [] {
      assert !Accepted(answers[0]);
      MakerNoneAccepted(limit, answers[1..], fallback);
      var rest := Repeat(limit, |answers| - 1);
      RepeatCons(limit, |answers| - 1);
      assert [limit] + (rest + fallback.orders) == ([limit] + rest) + fallback.orders;
    }
  }

  /** What maker_then_escalate promises: nothing for a size that clamps to zero;
      success after the first accepted maker order; with none accepted, the
      market order iff taker execution is allowed. */
  lemma EscalateOutcome(cfg: ExecConfig, side: Side, qty: real, bestPx: real, allowTaker: bool,
                        makerAnswers: seq<OrderResponse>, marketAnswer: OrderResponse)
    ensures ClampQty(cfg, qty) <= 0.0 ==>
              MakerThenEscalateSpec(cfg, side, qty, bestPx, allowTaker, makerAnswers, marketAnswer) == Execution(false, [])
    // the first accepted maker order ends the call with success and no market order
    ensures forall k :: ClampQty(cfg, qty) > 0.0 && 0 <= k < |makerAnswers| &&
                        Accepted(makerAnswers[k]) && NoneAcceptedBefore(makerAnswers, k) ==>
              MakerThenEscalateSpec(cfg, side, qty, bestPx, allowTaker, makerAnswers, marketAnswer) ==
              Execution(true, Repeat(LimitOrder(side, ClampQty(cfg, qty), bestPx, Tif(cfg)), k + 1))
    // with none accepted, the market order is tried iff taker execution is allowed
    ensures ClampQty(cfg, qty) > 0.0 && NoneAcceptedBefore(makerAnswers, |makerAnswers|) ==>
              var limits := Repeat(LimitOrder(side, ClampQty(cfg, qty), bestPx, Tif(cfg)), |makerAnswers|);
              var market := Market(cfg, side, ClampQty(cfg, qty), marketAnswer);
              MakerThenEscalateSpec(cfg, side, qty, bestPx, allowTaker, makerAnswers, marketAnswer) ==
              if allowTaker then Execution(market.ok, limits + market.orders) else Execution(false, limits)
  {
    var q := ClampQty(cfg, qty);
    if q > 0.0 {
      var limit := LimitOrder(side, q, bestPx, Tif(cfg));
      var fallback := if allowTaker then Market(cfg, side, q, marketAnswer) else Execution(false, []);
      forall k | 0 <= k < |makerAnswers| && Accepted(makerAnswers[k]) && NoneAcceptedBefore(makerAnswers, k)
        ensures MakerAttempts(limit, makerAnswers, fallback) == Execution(true, Repeat(limit, k + 1))
      {
        MakerFirstAccepted(limit, makerAnswers, fallback, k);
      }
      if NoneAcceptedBefore(makerAnswers, |makerAnswers|) {
        MakerNoneAccepted(limit, makerAnswers, fallback);
      }
    }
  }

  /** maker_then_escalate. `makerAnswers` holds the gateway's answers to the
      attempts that start before the chase deadline, in order; `marketAnswer`
      is the answer to the market fallback. */
  method MakerThenEscalate(cfg: ExecConfig, side: Side, qty: real, bestPx: real, allowTaker: bool,
                           makerAnswers: seq<OrderResponse>, marketAnswer: OrderResponse)
    returns (e: Execution)
    ensures e == MakerThenEscalateSpec(cfg, side, qty, bestPx, allowTaker, makerAnswers, marketAnswer)
  {
    var q := ClampQty(cfg, qty);
    if q <= 0.0 {
      return Execution(false, []);
    }
    var limit := LimitOrder(side, q, bestPx, if cfg.postOnly then PostOnly else GoodTillCancel);
    ghost var fallback := if allowTaker then Market(cfg, side, q, marketAnswer) else Execution(false, []);
    var placed, orders := ChaseMaker(limit, makerAnswers, fallback);
    if placed {
      return Execution(true, orders);
    }
    if allowTaker {
      var m := Market(cfg, side, q, marketAnswer);
      return Execution(m.ok, orders + m.orders);
    }
    assert orders + [] == orders;
    return Execution(false, orders);
  }

  /** The chase loop of maker_then_escalate: one limit order per answer until
      one is accepted. When none is, `orders` are the limit orders placed
      before the `fallback` takes over. */
  method ChaseMaker(limit: Order, makerAnswers: seq<OrderResponse>, ghost fallback: Execution)
    returns (placed: bool, orders: seq<Order>)
    ensures placed ==> MakerAttempts(limit, makerAnswers, fallback) == Execution(true, orders)
    ensures !placed ==> MakerAttempts(limit, makerAnswers, fallback) == Execution(fallback.ok, orders + fallback.orders)
  {
    orders := [];
    var i := 0;
    placed := false;
    while i < |makerAnswers| && !placed
      invariant 0 <= i <= |makerAnswers|
      invariant !placed
      invariant MakerAttempts(limit, makerAnswers, fallback) ==
                Execution(MakerAttempts(limit, makerAnswers[i..], fallback).ok,
                          orders + MakerAttempts(limit, makerAnswers[i..], fallback).orders)
    {
      MakerFrom(limit, makerAnswers, fallback, i);
      AppendAssoc(orders, [limit], MakerAttempts(limit, makerAnswers[i + 1..], fallback).orders);
      orders := orders + [limit];
      placed := Accepted(makerAnswers[i]);
      if placed {
        return;
      }
      i := i + 1;
    }
    assert makerAnswers[i..] == [];
  }

  /** A fallback market order is submitted for exactly the clamped size the maker
      attempts used, since clamping twice is clamping once. */
  lemma FallbackUsesMakerSize(cfg: ExecConfig, side: Side, qty: real, resp: OrderResponse)
    requires ClampQty(cfg, qty) > 0.0
    ensures Market(cfg, side, ClampQty(cfg, qty), resp).orders == [MarketOrder(side, ClampQty(cfg, qty))]
  {
    ClampIdempotent(cfg, qty);
  }
}
