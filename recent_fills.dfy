// The recent-fills anchor: a bounded, time-windowed cache of the account's own
// spot executions, fed by polling the execution history, and the per-side
// volume-weighted average prices and net base imbalance computed over it.
module RecentFills {
  import opened Common

  /** One cached execution; `side` is the exchange's text, "Buy" or "Sell". */
  datatype Fill = Fill(ts: real, side: string, price: real, qty: real)

  /** One record of the execution history, after its fields were read. A record
      whose fields do not convert to numbers is `Unparseable`. `execId` is the
      record's execution id, if it carries one; `price`, `qty` and `tsRaw` are 0
      when the field is missing. */
  datatype RawRecord =
    | Unparseable
    | Record(execId: Option<string>, side: string, price: real, qty: real, tsRaw: real)

  /** The answer to one execution-history request, most recent record first.
      `NoResponse` is an empty answer or a request that raised. */
  datatype ExecResponse = NoResponse | Response(retCode: int, records: seq<RawRecord>)

  const MIN_WINDOW_SECONDS: int := 60
  const MIN_POLL_INTERVAL: real := 1.0
  /** Raw timestamps above this are milliseconds since the epoch. */
  const MS_EPOCH_THRESHOLD: real := 1000000000000.0
  const TS_TOLERANCE: real := 0.000001
  const VALUE_TOLERANCE: real := 0.000000000001

  predicate WellFormed(f: Fill)
  {
    f.price > 0.0 && f.qty > 0.0 && (f.side == "Buy" || f.side == "Sell")
  }

  predicate AllWellFormed(fills: seq<Fill>)
  {
    forall i :: 0 <= i < |fills| ==> WellFormed(fills[i])
  }

  /** A raw timestamp in seconds: millisecond epochs are divided by 1000. */
  function TimestampSeconds(tsRaw: real): (ts: real)
    ensures tsRaw != 0.0 && Trunc(tsRaw) as real > MS_EPOCH_THRESHOLD ==> ts * 1000.0 == tsRaw
    ensures !(tsRaw != 0.0 && Trunc(tsRaw) as real > MS_EPOCH_THRESHOLD) ==> ts == tsRaw
  {
    if tsRaw != 0.0 && Trunc(tsRaw) as real > MS_EPOCH_THRESHOLD then tsRaw / 1000.0 else tsRaw
  }

  /** A record is cached only with a positive price and quantity and a known side. */
  predicate Acceptable(r: RawRecord)
  {
    r.Record? && r.price > 0.0 && r.qty > 0.0 && (r.side == "Buy" || r.side == "Sell")
  }

  /** The record carries an id and repeats the last cached fill (timestamp,
      side, price and quantity, within tolerance). */
  predicate RepeatsLast(fills: seq<Fill>, r: RawRecord)
    requires r.Record?
  {
    |fills| > 0 && r.execId.Some? &&
    var last := fills[|fills| - 1];
    Abs(last.ts - TimestampSeconds(r.tsRaw)) < TS_TOLERANCE && last.side == r.side &&
    Abs(last.price - r.price) < VALUE_TOLERANCE && Abs(last.qty - r.qty) < VALUE_TOLERANCE
  }

  /** Appending to a deque bounded by `cap`: the oldest entries fall off the front. */
  function AppendBounded(s: seq<Fill>, x: Fill, cap: nat): (r: seq<Fill>)
    ensures |r| <= cap && |r| <= |s| + 1
    ensures |r| == if |s| + 1 <= cap then |s| + 1 else cap
    ensures |s| < cap ==> r == s + [x]
    ensures r == (s + [x])[|s| + 1 - |r|..]
    ensures cap > 0 ==> |r| > 0 && r[|r| - 1] == x
  {
    if |s| + 1 <= cap then s + [x] else (s + [x])[|s| + 1 - cap..]
  }

  datatype IngestState = IngestState(fills: seq<Fill>, lastExecId: Option<string>)

  /** The effect of one record of a poll on the cache. */
  function IngestRecord(st: IngestState, r: RawRecord, now: real, cap: nat): IngestState
  {
    if !Acceptable(r) || RepeatsLast(st.fills, r) then st
    else
      var ts := TimestampSeconds(r.tsRaw);
      IngestState(AppendBounded(st.fills, Fill(if ts == 0.0 then now else ts, r.side, r.price, r.qty), cap),
                  if r.execId.Some? && r.execId.value != "" then r.execId else st.lastExecId)
  }

  /** The effect of a sequence of records, taken in order. */
  function Ingest(st: IngestState, records: seq<RawRecord>, now: real, cap: nat): IngestState
    decreases |records|
  {
    if records == [] then st
    else IngestRecord(Ingest(st, records[..|records| - 1], now, cap), records[|records| - 1], now, cap)
  }

  function Reversed<T>(s: seq<T>): (r: seq<T>)
    ensures |r| == |s|
    ensures forall i :: 0 <= i < |s| ==> r[i] == s[|s| - 1 - i]
  {
    if s == [] then [] else [s[|s| - 1]] + Reversed(s[..|s| - 1])
  }

  /** Drop fills from the front while the front one is older than the cutoff. */
  function Prune(fills: seq<Fill>, cutoff: real): (r: seq<Fill>)
    ensures |r| <= |fills| && r == fills[|fills| - |r|..]
    ensures r != [] ==> r[0].ts >= cutoff
    ensures forall i :: 0 <= i < |fills| - |r| ==> fills[i].ts < cutoff
  {
    if fills == [] || fills[0].ts >= cutoff then fills else Prune(fills[1..], cutoff)
  }

  /** One poll's effect on (fills, last id), once the poll interval has passed:
      an empty or failed answer changes nothing; otherwise the records are
      taken oldest first and the cache is pruned. */
  function FetchSpec(st: IngestState, resp: ExecResponse, now: real, window: int, cap: nat): IngestState
  {
    if resp.NoResponse? || resp.retCode != 0 then st
    else
      var after := Ingest(st, Reversed(resp.records), now, cap);
      IngestState(Prune(after.fills, now - window as real), after.lastExecId)
  }

  /** update at time `now`: a poll happens only once the poll interval has
      passed since the last one. */
  function PollSpec(st: IngestState, lastPoll: real, pollInterval: real, resp: ExecResponse,
                    now: real, window: int, cap: nat): IngestState
  {
    if now - lastPoll < pollInterval then st else FetchSpec(st, resp, now, window, cap)
  }

  /** Pruning twice at the same cutoff is pruning once. */
  lemma {:induction false} PruneIdempotent(fills: seq<Fill>, cutoff: real)
    ensures Prune(Prune(fills, cutoff), cutoff) == Prune(fills, cutoff)
    decreases |fills|
  {
    if fills != [] && fills[0].ts < cutoff {
      PruneIdempotent(fills[1..], cutoff);
    }
  }

  /** Only well-formed fills ever enter the cache, and it never exceeds its bound. */
  lemma {:induction false} IngestKeepsWellFormed(st: IngestState, records: seq<RawRecord>, now: real, cap: nat)
    requires AllWellFormed(st.fills) && |st.fills| <= cap
    ensures var r := Ingest(st, records, now, cap); AllWellFormed(r.fills) && |r.fills| <= cap
    decreases |records|
  {
    if records != [] {
      IngestKeepsWellFormed(st, records[..|records| - 1], now, cap);
      var mid := Ingest(st, records[..|records| - 1], now, cap);
      var r := records[|records| - 1];
      if Acceptable(r) && !RepeatsLast(mid.fills, r) {
        var ts := TimestampSeconds(r.tsRaw);
        var f := Fill(if ts == 0.0 then now else ts, r.side, r.price, r.qty);
        var out := AppendBounded(mid.fills, f, cap);
        assert out == (mid.fills + [f])[|mid.fills| + 1 - |out|..];
        forall i | 0 <= i < |out| ensures WellFormed(out[i]) {
          assert out[i] == (mid.fills + [f])[|mid.fills| + 1 - |out| + i];
        }
      }
    }
  }

  /** A rejected record (bad price, quantity or side) leaves the cache and id as they were. */
  lemma RejectedRecordIgnored(st: IngestState, r: RawRecord, now: real, cap: nat)
    requires !Acceptable(r)
    ensures IngestRecord(st, r, now, cap) == st
  {
  }

  /** A record that repeats the last cached fill is not appended a second time. */
  lemma RepeatedRecordIgnored(st: IngestState, r: RawRecord, now: real, cap: nat)
    requires r.Record? && RepeatsLast(st.fills, r)
    ensures IngestRecord(st, r, now, cap) == st
  {
  }

  /** An accepted record becomes the newest fill, stamped with `now` when it has no timestamp. */
  lemma AcceptedRecordAppended(st: IngestState, r: RawRecord, now: real, cap: nat)
    requires Acceptable(r) && !RepeatsLast(st.fills, r) && cap > 0
    ensures var out := IngestRecord(st, r, now, cap).fills;
            var ts := TimestampSeconds(r.tsRaw);
            |out| > 0 && out[|out| - 1] == Fill(if ts == 0.0 then now else ts, r.side, r.price, r.qty)
  {
  }

  // ---------------------------------------------------------------------
  // Per-side totals and VWAPs over the window

  datatype Totals = Totals(buyNotional: real, buyQty: real, sellNotional: real, sellQty: real, imbalance: real)

  /** Add one fill to the totals: skipped when older than the cutoff; "Buy"
      counts on the buy side and every other side on the sell side. */
  function AddFill(t: Totals, f: Fill, cutoff: real): Totals
  {
    if f.ts < cutoff then t
    else if f.side == "Buy" then
      Totals(t.buyNotional + f.price * f.qty, t.buyQty + f.qty, t.sellNotional, t.sellQty, t.imbalance + f.qty)
    else
      Totals(t.buyNotional, t.buyQty, t.sellNotional + f.price * f.qty, t.sellQty + f.qty, t.imbalance - f.qty)
  }

  function WindowTotals(fills: seq<Fill>, cutoff: real): Totals
    decreases |fills|
  {
    if fills == [] then Totals(0.0, 0.0, 0.0, 0.0, 0.0)
    else AddFill(WindowTotals(fills[..|fills| - 1], cutoff), fills[|fills| - 1], cutoff)
  }

  function Vwap(notional: real, qty: real): Option<real>
  {
    if qty > 0.0 then Some(notional / qty) else None
  }

  datatype Vwaps = Vwaps(buyVwap: Option<real>, sellVwap: Option<real>, imbalance: real)

  function VwapsOf(fills: seq<Fill>, cutoff: real): Vwaps
  {
    var t := WindowTotals(fills, cutoff);
    Vwaps(Vwap(t.buyNotional, t.buyQty), Vwap(t.sellNotional, t.sellQty), t.imbalance)
  }

  /** Number of fills at or after the cutoff. */
  function CountInWindow(fills: seq<Fill>, cutoff: real): (n: nat)
    ensures n <= |fills|
    decreases |fills|
  {
    if fills == [] then 0
    else CountInWindow(fills[..|fills| - 1], cutoff) + (if fills[|fills| - 1].ts >= cutoff then 1 else 0)
  }

  /** The net imbalance is the bought quantity minus the sold quantity, and
      with well-formed fills both quantities are non-negative. */
  lemma {:induction false} ImbalanceIsNet(fills: seq<Fill>, cutoff: real)
    requires AllWellFormed(fills)
    ensures var t := WindowTotals(fills, cutoff);
            t.imbalance == t.buyQty - t.sellQty && t.buyQty >= 0.0 && t.sellQty >= 0.0
    decreases |fills|
  {
    if fills != [] {
      ImbalanceIsNet(fills[..|fills| - 1], cutoff);
    }
  }

  /** In-window buys all priced within [lo, hi]. */
  predicate BuysPricedWithin(fills: seq<Fill>, cutoff: real, lo: real, hi: real)
  {
    forall i :: 0 <= i < |fills| && fills[i].ts >= cutoff && fills[i].side == "Buy" ==>
      lo <= fills[i].price <= hi
  }

  predicate BuyNotionalWithin(t: Totals, lo: real, hi: real)
  {
    lo * t.buyQty <= t.buyNotional <= hi * t.buyQty
  }

  lemma {:induction false} BuyNotionalBounds(fills: seq<Fill>, cutoff: real, lo: real, hi: real)
    requires AllWellFormed(fills) && BuysPricedWithin(fills, cutoff, lo, hi)
    ensures BuyNotionalWithin(WindowTotals(fills, cutoff), lo, hi)
    decreases |fills|
  {
    if fills != [] {
      var init := fills[..|fills| - 1];
      var f := fills[|fills| - 1];
      BuysPricedWithinPrefix(fills, cutoff, lo, hi);
      BuyNotionalBounds(init, cutoff, lo, hi);
      var t0 := WindowTotals(init, cutoff);
      BuyStep(t0, f, cutoff, lo, hi);
      assert WindowTotals(fills, cutoff) == AddFill(t0, f, cutoff);
    }
  }

  lemma BuysPricedWithinPrefix(fills: seq<Fill>, cutoff: real, lo: real, hi: real)
    requires fills != [] && AllWellFormed(fills) && BuysPricedWithin(fills, cutoff, lo, hi)
    ensures var init, f := fills[..|fills| - 1], fills[|fills| - 1];
            AllWellFormed(init) && BuysPricedWithin(init, cutoff, lo, hi) && WellFormed(f) &&
            (f.ts >= cutoff && f.side == "Buy" ==> lo <= f.price <= hi)
  {
    var init := fills[..|fills| - 1];
    forall i | 0 <= i < |init| ensures init[i] == fills[i] { }
  }

  lemma BuyStep(t: Totals, f: Fill, cutoff: real, lo: real, hi: real)
    requires BuyNotionalWithin(t, lo, hi)
    requires WellFormed(f) && (f.ts >= cutoff && f.side == "Buy" ==> lo <= f.price <= hi)
    ensures BuyNotionalWithin(AddFill(t, f, cutoff), lo, hi)
  {
    if f.ts >= cutoff && f.side == "Buy" {
      MulLe(lo, f.price, f.qty);
      MulLe(f.price, hi, f.qty);
      assert lo * (t.buyQty + f.qty) == lo * t.buyQty + lo * f.qty;
      assert hi * (t.buyQty + f.qty) == hi * t.buyQty + hi * f.qty;
    }
  }

  lemma MulLe(a: real, b: real, q: real)
    requires a <= b && q >= 0.0
    ensures a * q <= b * q
  {
    assert b * q - a * q == (b - a) * q;
  }

  /** The buy VWAP, when there is one, lies between the lowest and the highest
      price of the in-window buys. */
  lemma BuyVwapWithinPrices(fills: seq<Fill>, cutoff: real, lo: real, hi: real)
    requires AllWellFormed(fills) && BuysPricedWithin(fills, cutoff, lo, hi)
    ensures var v := VwapsOf(fills, cutoff).buyVwap;
            v.Some? ==> lo <= v.value <= hi
  {
    var t := WindowTotals(fills, cutoff);
    BuyNotionalBounds(fills, cutoff, lo, hi);
    if t.buyQty > 0.0 {
      DivWithin(t.buyNotional, t.buyQty, lo, hi);
    }
  }

  /** A fill older than the cutoff at the front of the cache contributes nothing. */
  lemma {:induction false} TotalsSkipStale(f: Fill, rest: seq<Fill>, cutoff: real)
    requires f.ts < cutoff
    ensures WindowTotals([f] + rest, cutoff) == WindowTotals(rest, cutoff)
    ensures CountInWindow([f] + rest, cutoff) == CountInWindow(rest, cutoff)
    decreases |rest|
  {
    if rest == [] {
      assert ([f] + rest)[..0] == [];
    } else {
      assert ([f] + rest)[..|[f] + rest| - 1] == [f] + rest[..|rest| - 1];
      TotalsSkipStale(f, rest[..|rest| - 1], cutoff);
    }
  }

  /** Pruning at the window's cutoff changes neither the VWAPs, the imbalance nor
      the sample count: only fills the window ignores are dropped. */
  lemma {:induction false} PruneKeepsWindow(fills: seq<Fill>, cutoff: real)
    ensures WindowTotals(Prune(fills, cutoff), cutoff) == WindowTotals(fills, cutoff)
    ensures CountInWindow(Prune(fills, cutoff), cutoff) == CountInWindow(fills, cutoff)
    decreases |fills|
  {
    if fills != [] && fills[0].ts < cutoff {
      assert fills == [fills[0]] + fills[1..];
      TotalsSkipStale(fills[0], fills[1..], cutoff);
      PruneKeepsWindow(fills[1..], cutoff);
    }
  }

  /** With no fill in the window there is no anchor: no VWAP and no imbalance. */
  lemma {:induction false} EmptyWindowNoAnchor(fills: seq<Fill>, cutoff: real)
    requires CountInWindow(fills, cutoff) == 0
    ensures VwapsOf(fills, cutoff) == Vwaps(None, None, 0.0)
    ensures WindowTotals(fills, cutoff) == Totals(0.0, 0.0, 0.0, 0.0, 0.0)
    decreases |fills|
  {
    if fills != [] {
      EmptyWindowNoAnchor(fills[..|fills| - 1], cutoff);
    }
  }

  /** Two buys (100 at 10, 110 at 5) and a sell (120 at 8), all in the window:
      buy VWAP 1550/15, sell VWAP 120, imbalance 7. */
  lemma VwapExample(now: real)
    ensures var fills := [Fill(now, "Buy", 100.0, 10.0), Fill(now, "Buy", 110.0, 5.0), Fill(now, "Sell", 120.0, 8.0)];
            VwapsOf(fills, now - 600.0) == Vwaps(Some(1550.0 / 15.0), Some(120.0), 7.0)
  {
    var fills := [Fill(now, "Buy", 100.0, 10.0), Fill(now, "Buy", 110.0, 5.0), Fill(now, "Sell", 120.0, 8.0)];
    assert fills[..2] == [Fill(now, "Buy", 100.0, 10.0), Fill(now, "Buy", 110.0, 5.0)];
    assert fills[..2][..1] == [Fill(now, "Buy", 100.0, 10.0)];
    assert fills[..2][..1][..0] == [];
    var cutoff := now - 600.0;
    assert WindowTotals(fills[..2][..1], cutoff) == Totals(1000.0, 10.0, 0.0, 0.0, 10.0);
    assert WindowTotals(fills[..2], cutoff) == Totals(1550.0, 15.0, 0.0, 0.0, 15.0);
    assert WindowTotals(fills, cutoff) == Totals(1550.0, 15.0, 960.0, 8.0, 7.0);
  }

  datatype Anchor = Anchor(buyVwap: Option<real>, sellVwap: Option<real>, netImbalance: real,
                           windowSeconds: int, sampleCount: nat)

  /** The anchor state: the cache of recent fills, the poll clock and the last
      execution id seen. */
  class FillsAnchor {
    const symbol: string
    const windowSeconds: int
    const pollInterval: real
    const maxCached: nat
    var fills: seq<Fill>
    var lastPollTime: real
    var lastExecId: Option<string>

    ghost predicate Valid()
      reads this
    {
      windowSeconds >= MIN_WINDOW_SECONDS && pollInterval >= MIN_POLL_INTERVAL &&
      |fills| <= maxCached && AllWellFormed(fills)
    }

    function State(): IngestState
      reads this
    {
      IngestState(fills, lastExecId)
    }

    constructor (symbol: string, windowSeconds: real, pollInterval: real, maxCached: nat)
      ensures Valid()
      ensures this.symbol == symbol && this.maxCached == maxCached
      ensures this.windowSeconds == (if Trunc(windowSeconds) < MIN_WINDOW_SECONDS then MIN_WINDOW_SECONDS else Trunc(windowSeconds))
      ensures this.pollInterval == Max(MIN_POLL_INTERVAL, pollInterval)
      ensures fills == [] && lastPollTime == 0.0 && lastExecId == None
    {
      this.symbol := symbol;
      var w := Trunc(windowSeconds);
      this.windowSeconds := if w < MIN_WINDOW_SECONDS then MIN_WINDOW_SECONDS else w;
      this.pollInterval := Max(MIN_POLL_INTERVAL, pollInterval);
      this.maxCached := maxCached;
      fills := [];
      lastPollTime := 0.0;
      lastExecId := None;
    }

    /** _fetch_new_fills: rate-limited by the poll interval; `resp` is what the
        execution-history request answers at time `now`. */
    method FetchNewFills(now: real, resp: ExecResponse)
      requires Valid()
      modifies this
      ensures Valid()
      ensures now - old(lastPollTime) < pollInterval ==>
                lastPollTime == old(lastPollTime) && State() == old(State())
      ensures now - old(lastPollTime) >= pollInterval ==>
                lastPollTime == now && State() == FetchSpec(old(State()), resp, now, windowSeconds, maxCached)
      ensures State() == PollSpec(old(State()), old(lastPollTime), pollInterval, resp, now, windowSeconds, maxCached)
    {
      if now - lastPollTime < pollInterval {
        return;
      }
      lastPollTime := now;
      if resp.NoResponse? || resp.retCode != 0 {
        return;
      }
      var records := Reversed(resp.records);
      ghost var start := State();
      IngestKeepsWellFormed(start, records, now, maxCached);
      var i := 0;
      while i < |records|
        invariant 0 <= i <= |records|
        invariant State() == Ingest(start, records[..i], now, maxCached)
        invariant lastPollTime == now
      {
        PrefixStep(records, i);
        var r := records[i];
        if Acceptable(r) && !RepeatsLast(fills, r) {
          var ts := TimestampSeconds(r.tsRaw);
          fills := AppendBounded(fills, Fill(if ts == 0.0 then now else ts, r.side, r.price, r.qty), maxCached);
          if r.execId.Some? && r.execId.value != "" {
            lastExecId := r.execId;
          }
        }
        i := i + 1;
      }
      PrefixAll(records);
      IngestKeepsWellFormed(start, records, now, maxCached);
      PruneOld(now);
    }

    /** _prune_old: drop expired fills from the front of the cache. */
    method PruneOld(now: real)
      requires Valid()
      modifies this`fills
      ensures Valid()
      ensures fills == Prune(old(fills), now - windowSeconds as real)
    {
      var cutoff := now - windowSeconds as real;
      var rest := fills;
      while |rest| > 0 && rest[0].ts < cutoff
        invariant Prune(rest, cutoff) == Prune(fills, cutoff)
        invariant |rest| <= |fills| && AllWellFormed(rest)
      {
        rest := rest[1..];
      }
      assert Prune(rest, cutoff) == rest;
      fills := rest;
    }

    /** _compute_vwaps at time `now`; reads the cache without changing it. */
    method ComputeVwaps(now: real) returns (v: Vwaps)
      ensures v == VwapsOf(fills, now - windowSeconds as real)
    {
      var cutoff := now - windowSeconds as real;
      var buyNotional, buyQty, sellNotional, sellQty, imbalance := 0.0, 0.0, 0.0, 0.0, 0.0;
      var fs := fills;
      var i := 0;
      while i < |fs|
        invariant 0 <= i <= |fs|
        invariant WindowTotals(fs[..i], cutoff) == Totals(buyNotional, buyQty, sellNotional, sellQty, imbalance)
      {
        PrefixStep(fs, i);
        var f := fs[i];
        ghost var t := Totals(buyNotional, buyQty, sellNotional, sellQty, imbalance);
        assert WindowTotals(fs[..i + 1], cutoff) == AddFill(t, f, cutoff);
        if f.ts >= cutoff {
          if f.side == "Buy" {
            buyNotional := buyNotional + f.price * f.qty;
            buyQty := buyQty + f.qty;
            imbalance := imbalance + f.qty;
          } else {
            sellNotional := sellNotional + f.price * f.qty;
            sellQty := sellQty + f.qty;
            imbalance := imbalance - f.qty;
          }
        }
        assert Totals(buyNotional, buyQty, sellNotional, sellQty, imbalance) == AddFill(t, f, cutoff);
        i := i + 1;
      }
      PrefixAll(fs);
      var buyVwap := if buyQty > 0.0 then Some(buyNotional / buyQty) else None;
      var sellVwap := if sellQty > 0.0 then Some(sellNotional / sellQty) else None;
      v := Vwaps(buyVwap, sellVwap, imbalance);
    }

    /** get_anchor: prune, then report the VWAPs and the number of in-window fills. */
    method GetAnchor(now: real) returns (a: Anchor)
      requires Valid()
      modifies this`fills
      ensures Valid()
      ensures fills == Prune(old(fills), now - windowSeconds as real)
      ensures var v := VwapsOf(old(fills), now - windowSeconds as real);
              a == Anchor(v.buyVwap, v.sellVwap, v.imbalance, windowSeconds,
                          CountInWindow(old(fills), now - windowSeconds as real))
    {
      PruneOld(now);
      PruneKeepsWindow(old(fills), now - windowSeconds as real);
      var v := ComputeVwaps(now);
      a := Anchor(v.buyVwap, v.sellVwap, v.imbalance, windowSeconds, CountInWindow(fills, now - windowSeconds as real));
    }
  }
}
