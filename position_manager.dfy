// The position manager: a table of open positions in insertion order, keyed by
// the counter value that named them, with P&L tracking, partial closes, stop
// and take-profit checks and trailing stops that only ratchet; and the
// cancellation bookkeeping of its active orders.
module PositionManager {
  import opened Common

  /** The side text of a position: 'long', 'short' or anything else. Such
      another side is treated as short everywhere except in the per-side sums
      and in the stop and take-profit checks, which test 'short' explicitly
      and so never close it. */
  datatype PosSide = Long | Short | OtherSide

  datatype Position = Position(symbol: string, side: PosSide, entryPrice: real, quantity: real,
                               entryTime: real, emaType: string, realizedPnl: real, unrealizedPnl: real,
                               peakUnrealizedPnl: real, timeInPosition: real, stopLoss: Option<real>,
                               takeProfit: Option<real>, trailingStopDistance: Option<real>)

  /** A position under its id: the value of the counter when it was added (the
      key text is "pos_" followed by that number). */
  datatype Entry = Entry(id: nat, pos: Position)

  /** Position.update_pnl at time `now`. */
  function UpdatePnl(p: Position, price: real, now: real): (r: Position)
    ensures p.side == Long ==> r.unrealizedPnl == (price - p.entryPrice) * p.quantity
    ensures p.side != Long ==> r.unrealizedPnl == (p.entryPrice - price) * p.quantity
    // the peak is the highest unrealized P&L seen
    ensures r.peakUnrealizedPnl == Max(p.peakUnrealizedPnl, r.unrealizedPnl)
    ensures r.timeInPosition == now - p.entryTime
    ensures r.(unrealizedPnl := p.unrealizedPnl, peakUnrealizedPnl := p.peakUnrealizedPnl,
               timeInPosition := p.timeInPosition) == p
  {
    var u := if p.side == Long then (price - p.entryPrice) * p.quantity else (p.entryPrice - price) * p.quantity;
    var peak := if u > p.peakUnrealizedPnl then u else p.peakUnrealizedPnl;
    p.(unrealizedPnl := u, peakUnrealizedPnl := peak, timeInPosition := now - p.entryTime)
  }

  /** Ids in strictly increasing order (insertion order), all below the counter. */
  predicate TableOk(ps: seq<Entry>, counter: nat)
  {
    (forall i, j :: 0 <= i < j < |ps| ==> ps[i].id < ps[j].id) &&
    (forall i :: 0 <= i < |ps| ==> ps[i].id < counter)
  }

  /** The index of `id` in the table, or -1. */
  function IndexOf(ps: seq<Entry>, id: nat): (k: int)
    ensures -1 <= k < |ps|
    ensures k == -1 <==> forall i :: 0 <= i < |ps| ==> ps[i].id != id
    ensures k >= 0 ==> ps[k].id == id
    decreases |ps|
  {
    if ps == [] then -1
    else if ps[0].id == id then 0
    else
      var k := IndexOf(ps[1..], id);
      assert forall i :: 1 <= i < |ps| ==> ps[i] == ps[1..][i - 1];
      if k == -1 then -1 else k + 1
  }

  /** The quantity close_position takes out: all of it, or at most all of it. */
  function ExitQuantity(p: Position, exitQuantity: Option<real>): (q: real)
    ensures q <= p.quantity
    ensures exitQuantity.None? ==> q == p.quantity
    ensures exitQuantity.Some? ==> q == Min(exitQuantity.value, p.quantity)
  {
    if exitQuantity.None? then p.quantity else Min(exitQuantity.value, p.quantity)
  }

  function ClosePnl(p: Position, exitPrice: real, q: real): (pnl: real)
    ensures p.side == Long ==> pnl == (exitPrice - p.entryPrice) * q
    ensures p.side != Long ==> pnl == (p.entryPrice - exitPrice) * q
  {
    if p.side == Long then (exitPrice - p.entryPrice) * q else (p.entryPrice - exitPrice) * q
  }

  function RemoveAt(ps: seq<Entry>, k: int): (r: seq<Entry>)
    requires 0 <= k < |ps|
    ensures |r| == |ps| - 1
    ensures forall i :: 0 <= i < k ==> r[i] == ps[i]
    ensures forall i :: k <= i < |r| ==> r[i] == ps[i + 1]
  {
    ps[..k] + ps[k + 1..]
  }

  /** close_position on values: the realized P&L and the new table. */
  function CloseSpec(ps: seq<Entry>, id: nat, exitPrice: real, exitQuantity: Option<real>): (r: (real, seq<Entry>))
    ensures IndexOf(ps, id) == -1 ==> r == (0.0, ps)
    ensures IndexOf(ps, id) >= 0 ==>
              var k := IndexOf(ps, id);
              var p := ps[k].pos;
              var q := ExitQuantity(p, exitQuantity);
              var p' := p.(realizedPnl := p.realizedPnl + ClosePnl(p, exitPrice, q), quantity := p.quantity - q);
              r.0 == ClosePnl(p, exitPrice, q) &&
              // removed when nothing is left, reduced in place otherwise
              r.1 == if p'.quantity <= 0.0 then RemoveAt(ps, k) else ps[k := Entry(id, p')]
  {
    var k := IndexOf(ps, id);
    if k == -1 then (0.0, ps)
    else
      var p := ps[k].pos;
      var q := ExitQuantity(p, exitQuantity);
      var pnl := ClosePnl(p, exitPrice, q);
      var p' := p.(realizedPnl := p.realizedPnl + pnl, quantity := p.quantity - q);
      (pnl, if p'.quantity <= 0.0 then RemoveAt(ps, k) else ps[k := Entry(id, p')])
  }

  /** Closing keeps the table well formed. */
  lemma CloseKeepsTable(ps: seq<Entry>, counter: nat, id: nat, exitPrice: real, exitQuantity: Option<real>)
    requires TableOk(ps, counter)
    ensures TableOk(CloseSpec(ps, id, exitPrice, exitQuantity).1, counter)
  {
    var k := IndexOf(ps, id);
    if k >= 0 {
      var r := CloseSpec(ps, id, exitPrice, exitQuantity).1;
      if |r| < |ps| {
        forall i, j | 0 <= i < j < |r| ensures r[i].id < r[j].id {
          var i' := if i < k then i else i + 1;
          var j' := if j < k then j else j + 1;
          assert r[i] == ps[i'] && r[j] == ps[j'];
        }
      }
    }
  }

  /** The quantity a position adds to the net position. */
  function NetContribution(p: Position): (c: real)
    ensures p.side == Long ==> c == p.quantity
    ensures p.side == Short ==> c == -p.quantity
    ensures p.side == OtherSide ==> c == 0.0
  {
    match p.side
    case Long => p.quantity
    case Short => -p.quantity
    case OtherSide => 0.0
  }

  function SideQuantity(ps: seq<Entry>, side: PosSide): real
  {
    if ps == [] then 0.0
    else SideQuantity(ps[..|ps| - 1], side) + (if ps[|ps| - 1].pos.side == side then ps[|ps| - 1].pos.quantity else 0.0)
  }

  /** get_net_position: long quantity minus short quantity, which is the sum of
      the signed contributions of the positions. */
  function NetPosition(ps: seq<Entry>): (r: real)
    ensures r == SignedTotal(ps)
  {
    NetIsSignedTotal(ps);
    SideQuantity(ps, Long) - SideQuantity(ps, Short)
  }

  function SignedTotal(ps: seq<Entry>): real
  {
    if ps == [] then 0.0 else SignedTotal(ps[..|ps| - 1]) + NetContribution(ps[|ps| - 1].pos)
  }

  /** Long total minus short total is the sum of the per-position contributions. */
  lemma {:induction false} NetIsSignedTotal(ps: seq<Entry>)
    ensures SideQuantity(ps, Long) - SideQuantity(ps, Short) == SignedTotal(ps)
    decreases |ps|
  {
    if ps != [] {
      NetIsSignedTotal(ps[..|ps| - 1]);
    }
  }

  lemma {:induction false} SignedTotalSplit(ps: seq<Entry>, k: int)
    requires 0 <= k < |ps|
    ensures SignedTotal(ps) == SignedTotal(ps[..k]) + NetContribution(ps[k].pos) + SignedTotal(ps[k + 1..])
    decreases |ps|
  {
    if k == |ps| - 1 {
      assert ps[..|ps| - 1] == ps[..k];
      assert ps[k + 1..] == [];
    } else {
      var init := ps[..|ps| - 1];
      SignedTotalSplit(init, k);
      assert init[..k] == ps[..k];
      assert init[k + 1..] == ps[k + 1..][..|ps[k + 1..]| - 1];
      assert init[k] == ps[k];
    }
  }

  lemma {:induction false} SignedTotalConcat(xs: seq<Entry>, ys: seq<Entry>)
    ensures SignedTotal(xs + ys) == SignedTotal(xs) + SignedTotal(ys)
    decreases |ys|
  {
    if ys == [] {
      assert xs + ys == xs;
    } else {
      assert (xs + ys)[..|xs + ys| - 1] == xs + ys[..|ys| - 1];
      SignedTotalConcat(xs, ys[..|ys| - 1]);
    }
  }

  /** Closing part of a position moves the net position by exactly the closed
      quantity on its side; removing it takes out what it held. */
  lemma NetPositionAfterClose(ps: seq<Entry>, id: nat, exitPrice: real, exitQuantity: Option<real>)
    requires IndexOf(ps, id) >= 0
    ensures var k := IndexOf(ps, id);
            var p := ps[k].pos;
            var q := ExitQuantity(p, exitQuantity);
            var ps' := CloseSpec(ps, id, exitPrice, exitQuantity).1;
            NetPosition(ps') == NetPosition(ps) - NetContribution(p) +
                                (if p.quantity - q <= 0.0 then 0.0 else NetContribution(p.(quantity := p.quantity - q)))
  {
    var k := IndexOf(ps, id);
    var ps' := CloseSpec(ps, id, exitPrice, exitQuantity).1;
    NetIsSignedTotal(ps);
    NetIsSignedTotal(ps');
    SignedTotalSplit(ps, k);
    if |ps'| < |ps| {
      assert ps' == ps[..k] + ps[k + 1..];
      SignedTotalConcat(ps[..k], ps[k + 1..]);
    } else {
      SignedTotalSplit(ps', k);
      assert ps'[..k] == ps[..k] && ps'[k + 1..] == ps[k + 1..];
    }
  }

  /** Adding a position moves the net position by its contribution. */
  lemma NetPositionAfterAdd(ps: seq<Entry>, e: Entry)
    ensures NetPosition(ps + [e]) == NetPosition(ps) + NetContribution(e.pos)
  {
    NetIsSignedTotal(ps);
    NetIsSignedTotal(ps + [e]);
    assert (ps + [e])[..|ps|] == ps;
  }

  function Exposure(ps: seq<Entry>): real
  {
    if ps == [] then 0.0 else Exposure(ps[..|ps| - 1]) + ps[|ps| - 1].pos.quantity * ps[|ps| - 1].pos.entryPrice
  }

  lemma ExposureAfterAdd(ps: seq<Entry>, e: Entry)
    ensures Exposure(ps + [e]) == Exposure(ps) + e.pos.quantity * e.pos.entryPrice
  {
    assert (ps + [e])[..|ps|] == ps;
  }

  /** The ids check_stop_levels reports for one position: once for a hit stop
      (a missing or zero stop is ignored) and once more for a hit take-profit. */
  function StopHits(e: Entry, price: real): (r: seq<nat>)
    ensures |r| <= 2 && forall i :: 0 <= i < |r| ==> r[i] == e.id
    ensures |r| > 0 <==> StopHit(e.pos, price) || TakeProfitHit(e.pos, price)
  {
    (if StopHit(e.pos, price) then [e.id] else []) + (if TakeProfitHit(e.pos, price) then [e.id] else [])
  }

  predicate StopHit(p: Position, price: real)
  {
    p.stopLoss.Some? && p.stopLoss.value != 0.0 &&
    ((p.side == Long && price <= p.stopLoss.value) || (p.side == Short && price >= p.stopLoss.value))
  }

  predicate TakeProfitHit(p: Position, price: real)
  {
    p.takeProfit.Some? && p.takeProfit.value != 0.0 &&
    ((p.side == Long && price >= p.takeProfit.value) || (p.side == Short && price <= p.takeProfit.value))
  }

  function AllStopHits(ps: seq<Entry>, price: real): seq<nat>
  {
    if ps == [] then [] else AllStopHits(ps[..|ps| - 1], price) + StopHits(ps[|ps| - 1], price)
  }

  /** A position whose stop or take-profit the price has reached. */
  predicate Hit(e: Entry, price: real)
  {
    StopHit(e.pos, price) || TakeProfitHit(e.pos, price)
  }

  /** An id is reported exactly when its position hit its stop or its take-profit. */
  lemma ReportedIffHit(ps: seq<Entry>, price: real, id: nat)
    ensures id in AllStopHits(ps, price) <==> exists k :: 0 <= k < |ps| && ps[k].id == id && Hit(ps[k], price)
  {
    if id in AllStopHits(ps, price) {
      var k := ReportedHasHit(ps, price, id);
    }
    if exists k :: 0 <= k < |ps| && ps[k].id == id && Hit(ps[k], price) {
      var k :| 0 <= k < |ps| && ps[k].id == id && Hit(ps[k], price);
      HitIsReported(ps, price, k);
    }
  }

  /** Every position whose level is hit is reported. */
  lemma {:induction false} HitIsReported(ps: seq<Entry>, price: real, k: nat)
    requires k < |ps| && Hit(ps[k], price)
    ensures ps[k].id in AllStopHits(ps, price)
    decreases |ps|
  {
    var init := ps[..|ps| - 1];
    assert AllStopHits(ps, price) == AllStopHits(init, price) + StopHits(ps[|ps| - 1], price);
    if k < |init| {
      assert init[k] == ps[k];
      HitIsReported(init, price, k);
    } else {
      assert StopHits(ps[k], price)[0] == ps[k].id;
    }
  }

  /** Every reported id belongs to a position whose level is hit. */
  lemma {:induction false} ReportedHasHit(ps: seq<Entry>, price: real, id: nat) returns (k: nat)
    requires id in AllStopHits(ps, price)
    ensures k < |ps| && ps[k].id == id && Hit(ps[k], price)
    decreases |ps|
  {
    var init := ps[..|ps| - 1];
    var last := ps[|ps| - 1];
    assert AllStopHits(ps, price) == AllStopHits(init, price) + StopHits(last, price);
    if id in AllStopHits(init, price) {
      k := ReportedHasHit(init, price, id);
      assert init[k] == ps[k];
    } else {
      k := |ps| - 1;
    }
  }

  /** One position of update_trailing_stops: a long stop trails below the price
      and only rises, a short (or other) stop trails above it and only falls. */
  function Trail(p: Position, price: real, trailPct: real): (r: Position)
    ensures p.side == Long && p.stopLoss.Some? ==> r.stopLoss.Some? && r.stopLoss.value >= p.stopLoss.value
    ensures p.side != Long && p.stopLoss.Some? ==> r.stopLoss.Some? && r.stopLoss.value <= p.stopLoss.value
    ensures p.stopLoss.None? ==> r.stopLoss.Some? && r.trailingStopDistance == Some(trailPct)
    ensures r.stopLoss != p.stopLoss ==>
              r.trailingStopDistance == Some(trailPct) &&
              r.stopLoss == Some(if p.side == Long then price * (1.0 - trailPct / 100.0) else price * (1.0 + trailPct / 100.0))
    ensures r.(stopLoss := p.stopLoss, trailingStopDistance := p.trailingStopDistance) == p
  {
    if p.side == Long then
      var newStop := price * (1.0 - trailPct / 100.0);
      if p.stopLoss.None? || newStop > p.stopLoss.value then p.(stopLoss := Some(newStop), trailingStopDistance := Some(trailPct))
      else p
    else
      var newStop := price * (1.0 + trailPct / 100.0);
      if p.stopLoss.None? || newStop < p.stopLoss.value then p.(stopLoss := Some(newStop), trailingStopDistance := Some(trailPct))
      else p
  }

  datatype OrderType = MarketType | LimitType | StopType | StopLimitType
  datatype OrderStatus = Pending | Filled | Cancelled | Rejected | PartiallyFilled

  datatype Order = Order(orderId: string, symbol: string, side: Side, orderType: OrderType, quantity: real,
                         price: Option<real>, status: OrderStatus, filledQty: real, avgFillPrice: real,
                         commission: real, createdTime: real, updatedTime: real, emaType: Option<string>,
                         positionSizeUsdt: Option<real>, reduceOnly: bool)

  /** The gateway's answer to a cancellation: none, a return code, or a raised error. */
  datatype CancelResponse = NoResponse | Response(retCode: int) | CallFailed

  /** 0 is success and 110001 means the order was already filled or cancelled. */
  predicate CancelAccepted(resp: CancelResponse)
  {
    resp.Response? && (resp.retCode == 0 || resp.retCode == 110001)
  }

  class PositionManager {
    const symbol: string
    const category: string
    var positions: seq<Entry>
    var positionCounter: nat
    var activeOrders: map<string, Order>
    var orderHistory: seq<Order>
    var totalVolumeTraded: real
    var totalCommissionPaid: real

    ghost predicate Valid()
      reads this
    {
      TableOk(positions, positionCounter)
    }

    constructor (symbol: string, category: string)
      ensures Valid()
      ensures this.symbol == symbol && this.category == category
      ensures positions == [] && positionCounter == 0 && activeOrders == map[] && orderHistory == []
      ensures totalVolumeTraded == 0.0 && totalCommissionPaid == 0.0
    {
      this.symbol := symbol;
      this.category := category;
      positions := [];
      positionCounter := 0;
      activeOrders := map[];
      orderHistory := [];
      totalVolumeTraded := 0.0;
      totalCommissionPaid := 0.0;
    }

    /** add_position at time `now`: named by the counter, which then advances. */
    method AddPosition(side: PosSide, entryPrice: real, quantity: real, emaType: string,
                       stopLoss: Option<real>, takeProfit: Option<real>, now: real) returns (id: nat)
      requires Valid()
      modifies this`positions, this`positionCounter
      ensures Valid()
      ensures id == old(positionCounter) && positionCounter == old(positionCounter) + 1
      ensures IndexOf(old(positions), id) == -1
      ensures positions == old(positions) +
                [Entry(id, Position(symbol, side, entryPrice, quantity, now, emaType, 0.0, 0.0, 0.0, 0.0,
                                    stopLoss, takeProfit, None))]
    {
      id := positionCounter;
      positionCounter := positionCounter + 1;
      var p := Position(symbol, side, entryPrice, quantity, now, emaType, 0.0, 0.0, 0.0, 0.0, stopLoss, takeProfit, None);
      positions := positions + [Entry(id, p)];
    }

    /** update_position_stops: set whichever levels are given, on a known id. */
    method UpdatePositionStops(id: nat, stopLoss: Option<real>, takeProfit: Option<real>)
      requires Valid()
      modifies this`positions
      ensures Valid()
      ensures IndexOf(old(positions), id) == -1 ==> positions == old(positions)
      ensures IndexOf(old(positions), id) >= 0 ==>
                var k := IndexOf(old(positions), id);
                var p := old(positions)[k].pos;
                positions == old(positions)[k := Entry(id, p.(stopLoss := if stopLoss.Some? then stopLoss else p.stopLoss,
                                                              takeProfit := if takeProfit.Some? then takeProfit else p.takeProfit))]
    {
      var k := IndexOf(positions, id);
      if k == -1 {
        return;
      }
      var p := positions[k].pos;
      if stopLoss.Some? {
        p := p.(stopLoss := stopLoss);
      }
      if takeProfit.Some? {
        p := p.(takeProfit := takeProfit);
      }
      positions := positions[k := Entry(id, p)];
    }

    /** close_position. */
    method ClosePosition(id: nat, exitPrice: real, exitQuantity: Option<real>) returns (pnl: real)
      requires Valid()
      modifies this`positions
      ensures Valid()
      ensures (pnl, positions) == CloseSpec(old(positions), id, exitPrice, exitQuantity)
    {
      CloseKeepsTable(positions, positionCounter, id, exitPrice, exitQuantity);
      var k := IndexOf(positions, id);
      if k == -1 {
        return 0.0;
      }
      var p := positions[k].pos;
      var q := if exitQuantity.None? then p.quantity else Min(exitQuantity.value, p.quantity);
      assert q == ExitQuantity(p, exitQuantity);
      pnl := if p.side == Long then (exitPrice - p.entryPrice) * q else (p.entryPrice - exitPrice) * q;
      assert pnl == ClosePnl(p, exitPrice, q);
      p := p.(realizedPnl := p.realizedPnl + pnl);
      p := p.(quantity := p.quantity - q);
      if p.quantity <= 0.0 {
        positions := RemoveAt(positions, k);
      } else {
        positions := positions[k := Entry(id, p)];
      }
    }

    /** get_total_exposure. */
    method GetTotalExposure() returns (total: real)
      ensures total == Exposure(positions)
    {
      total := 0.0;
      var i := 0;
      while i < |positions|
        invariant 0 <= i <= |positions|
        invariant total == Exposure(positions[..i])
      {
        PrefixStep(positions, i);
        total := total + positions[i].pos.quantity * positions[i].pos.entryPrice;
        i := i + 1;
      }
      PrefixAll(positions);
    }

    /** get_net_position. */
    function GetNetPosition(): (r: real)
      reads this
      ensures r == SignedTotal(positions)
    {
      NetPosition(positions)
    }

    /** update_all_pnl at time `now`. */
    method UpdateAllPnl(price: real, now: real)
      requires Valid()
      modifies this`positions
      ensures Valid()
      ensures |positions| == |old(positions)|
      ensures forall i :: 0 <= i < |positions| ==>
                positions[i] == Entry(old(positions)[i].id, UpdatePnl(old(positions)[i].pos, price, now))
    {
      var i := 0;
      while i < |positions|
        invariant 0 <= i <= |positions| && |positions| == |old(positions)|
        invariant forall j :: 0 <= j < i ==>
                    positions[j] == Entry(old(positions)[j].id, UpdatePnl(old(positions)[j].pos, price, now))
        invariant forall j :: i <= j < |positions| ==> positions[j] == old(positions)[j]
      {
        positions := positions[i := Entry(positions[i].id, UpdatePnl(positions[i].pos, price, now))];
        i := i + 1;
      }
    }

    /** check_stop_levels. */
    method CheckStopLevels(price: real) returns (toClose: seq<nat>)
      ensures toClose == AllStopHits(positions, price)
    {
      toClose := [];
      var i := 0;
      while i < |positions|
        invariant 0 <= i <= |positions|
        invariant toClose == AllStopHits(positions[..i], price)
      {
        PrefixStep(positions, i);
        var e := positions[i];
        var p := e.pos;
        if p.stopLoss.Some? && p.stopLoss.value != 0.0 {
          if p.side == Long && price <= p.stopLoss.value {
            toClose := toClose + [e.id];
          } else if p.side == Short && price >= p.stopLoss.value {
            toClose := toClose + [e.id];
          }
        }
        if p.takeProfit.Some? && p.takeProfit.value != 0.0 {
          if p.side == Long && price >= p.takeProfit.value {
            toClose := toClose + [e.id];
          } else if p.side == Short && price <= p.takeProfit.value {
            toClose := toClose + [e.id];
          }
        }
        i := i + 1;
      }
      PrefixAll(positions);
    }

    /** update_trailing_stops. */
    method UpdateTrailingStops(price: real, trailPct: real)
      requires Valid()
      modifies this`positions
      ensures Valid()
      ensures |positions| == |old(positions)|
      ensures forall i :: 0 <= i < |positions| ==>
                positions[i] == Entry(old(positions)[i].id, Trail(old(positions)[i].pos, price, trailPct))
    {
      var i := 0;
      while i < |positions|
        invariant 0 <= i <= |positions| && |positions| == |old(positions)|
        invariant forall j :: 0 <= j < i ==>
                    positions[j] == Entry(old(positions)[j].id, Trail(old(positions)[j].pos, price, trailPct))
        invariant forall j :: i <= j < |positions| ==> positions[j] == old(positions)[j]
      {
        var p := positions[i].pos;
        if p.side == Long {
          var newStop := price * (1.0 - trailPct / 100.0);
          if p.stopLoss.None? || newStop > p.stopLoss.value {
            p := p.(stopLoss := Some(newStop), trailingStopDistance := Some(trailPct));
          }
        } else {
          var newStop := price * (1.0 + trailPct / 100.0);
          if p.stopLoss.None? || newStop < p.stopLoss.value {
            p := p.(stopLoss := Some(newStop), trailingStopDistance := Some(trailPct));
          }
        }
        positions := positions[i := Entry(positions[i].id, p)];
        i := i + 1;
      }
    }

    /** cancel_order's bookkeeping at time `now`: an accepted cancellation of a
        known order marks it cancelled and moves it to the history. */
    method CancelOrder(orderId: string, resp: CancelResponse, now: real) returns (ok: bool)
      modifies this`activeOrders, this`orderHistory
      ensures ok <==> CancelAccepted(resp)
      ensures ok && orderId in old(activeOrders) ==>
                activeOrders == old(activeOrders) - {orderId} &&
                orderHistory == old(orderHistory) + [old(activeOrders)[orderId].(status := Cancelled, updatedTime := now)]
      ensures !ok || orderId !in old(activeOrders) ==>
                activeOrders == old(activeOrders) && orderHistory == old(orderHistory)
    {
      if CancelAccepted(resp) {
        if orderId in activeOrders {
          var order := activeOrders[orderId].(status := Cancelled, updatedTime := now);
          orderHistory := orderHistory + [order];
          activeOrders := activeOrders - {orderId};
        }
        return true;
      }
      return false;
    }
  }

  /** Repeated trailing keeps ratcheting: for a long, two updates leave the stop
      at least where either update alone would have put it. */
  lemma LongStopRatchets(p: Position, price1: real, price2: real, trailPct: real)
    requires p.side == Long
    ensures var r := Trail(Trail(p, price1, trailPct), price2, trailPct);
            r.stopLoss.Some? && r.stopLoss.value >= price1 * (1.0 - trailPct / 100.0) &&
            r.stopLoss.value >= price2 * (1.0 - trailPct / 100.0)
  {
  }
}
