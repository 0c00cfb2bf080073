// The delta tracker: the total USDT exposure over futures and spot, its
// divergence from the desired delta, a timer that runs while the divergence
// stays above its threshold, and the futures adjustment that restores the
// desired delta once the divergence has lasted too long.
module DeltaTracker {
  import opened Common
  import DE = DeltaEngine

  const DEFAULT_DESIRED_DELTA_USDT: real := 0.0
  const DEFAULT_DIVERGENCE_THRESHOLD_USDT: real := 1000.0
  const DEFAULT_DIVERGENCE_TIMEOUT_SECONDS: real := 360.0

  /** A configured value, or its default when the key is absent. */
  function Setting(o: Option<real>, default: real): real
  {
    if o.Some? then o.value else default
  }

  /** The divergence timer: whether the tracker is diverging, and since when. */
  datatype Divergence = Divergence(isDiverging: bool, start: Option<real>)

  predicate Coherent(d: Divergence)
  {
    d.isDiverging <==> d.start.Some?
  }

  /** _update_divergence_tracking: the timer starts on the transition above the
      threshold, stops on falling to or below it, and is otherwise left alone. */
  function TrackDivergence(d: Divergence, magnitude: real, threshold: real, now: real): (r: Divergence)
    ensures Coherent(d) ==> Coherent(r)
    ensures magnitude > threshold ==> r.isDiverging
    ensures magnitude <= threshold ==> !r.isDiverging
    // the start is set to `now` only on a transition
    ensures magnitude > threshold && !d.isDiverging ==> r.start == Some(now)
    // staying above the threshold keeps the start
    ensures magnitude > threshold && d.isDiverging ==> r == d
    ensures magnitude <= threshold && d.isDiverging ==> r.start == None
    ensures magnitude <= threshold && !d.isDiverging ==> r == d
  {
    var above := magnitude > threshold;
    if above && !d.isDiverging then Divergence(true, Some(now))
    else if !above && d.isDiverging then Divergence(false, None)
    else d
  }

  /** _get_divergence_duration. */
  function Duration(d: Divergence, now: real): (r: Option<real>)
    ensures r.Some? <==> d.isDiverging && d.start.Some?
    ensures r.Some? ==> r.value == now - d.start.value
  {
    if !d.isDiverging || d.start.None? then None else Some(now - d.start.value)
  }

  /** _needs_rebalance. A duration of exactly zero is falsy in Python and never
      triggers, whatever the timeout. */
  function NeedsRebalance(d: Divergence, divergence: real, threshold: real, timeout: real, now: real): (r: bool)
    ensures Abs(divergence) <= threshold ==> !r
    ensures r <==> Abs(divergence) > threshold && Duration(d, now).Some? &&
                   Duration(d, now).value != 0.0 && Duration(d, now).value > timeout
  {
    if Abs(divergence) <= threshold then false
    else
      var dur := Duration(d, now);
      dur.Some? && dur.value != 0.0 && dur.value > timeout
  }

  /** The timer over a sequence of (magnitude, time) samples, oldest first. */
  function TrackRun(d: Divergence, samples: seq<(real, real)>, threshold: real): Divergence
    decreases |samples|
  {
    if samples == [] then d
    else TrackRun(TrackDivergence(d, samples[0].0, threshold, samples[0].1), samples[1..], threshold)
  }

  /** While every sample stays above the threshold, the timer keeps the time of
      the first one when it was idle before it, and its own start otherwise. */
  lemma {:induction false} TimerKeepsFirstStart(d: Divergence, samples: seq<(real, real)>, threshold: real)
    requires Coherent(d) && |samples| > 0
    requires forall i :: 0 <= i < |samples| ==> samples[i].0 > threshold
    ensures TrackRun(d, samples, threshold).isDiverging
    ensures TrackRun(d, samples, threshold).start == if d.isDiverging then d.start else Some(samples[0].1)
    decreases |samples|
  {
    var next := TrackDivergence(d, samples[0].0, threshold, samples[0].1);
    if |samples| > 1 {
      TimerKeepsFirstStart(next, samples[1..], threshold);
    }
  }

  /** A sustained divergence needs a rebalance exactly when it has lasted longer
      than the timeout (and a non-zero time). */
  lemma SustainedDivergenceNeedsRebalance(d: Divergence, samples: seq<(real, real)>, threshold: real,
                                          timeout: real, divergence: real, now: real)
    requires Coherent(d) && !d.isDiverging && |samples| > 0
    requires forall i :: 0 <= i < |samples| ==> samples[i].0 > threshold
    requires Abs(divergence) > threshold
    ensures var first := samples[0].1;
            NeedsRebalance(TrackRun(d, samples, threshold), divergence, threshold, timeout, now) <==>
              now - first != 0.0 && now - first > timeout
  {
    TimerKeepsFirstStart(d, samples, threshold);
  }

  /** What sync_positions and get_status report. `lastSyncAge` is reported only
      by get_status without a price. */
  datatype Status = Status(futuresUsdt: real, spotUsdt: real, totalDelta: real, desired: real,
                           divergence: real, magnitude: real, isDiverging: bool,
                           duration: Option<real>, needsRebalance: bool, syncTime: real,
                           lastSyncAge: Option<real>)

  /** A status report built from the exposures and the (updated) timer. */
  function Report(futuresUsdt: real, spotUsdt: real, total: real, desired: real, d: Divergence,
                  threshold: real, timeout: real, now: real, syncTime: real, age: Option<real>): (st: Status)
    ensures st.divergence == total - desired && st.magnitude == Abs(total - desired)
    ensures st.isDiverging == d.isDiverging && st.duration == Duration(d, now)
    ensures st.needsRebalance == NeedsRebalance(d, total - desired, threshold, timeout, now)
  {
    Status(futuresUsdt, spotUsdt, total, desired, total - desired, Abs(total - desired), d.isDiverging,
           Duration(d, now), NeedsRebalance(d, total - desired, threshold, timeout, now), syncTime, age)
  }

  /** The result of calculate_futures_adjustment. */
  datatype Adjustment =
    | NoAdjustment
    | Adjust(usdt: real, quantity: real, side: Side, currentDivergence: real, targetDelta: real)

  /** calculate_futures_adjustment: nothing when no rebalance is needed;
      otherwise the futures change that cancels the divergence, its size in
      base units at the given price, and its side. A zero price raises. */
  function FuturesAdjustment(st: Status, desired: real, price: real): (r: Outcome<Adjustment>)
    ensures !st.needsRebalance ==> r == Ok(NoAdjustment)
    ensures st.needsRebalance && price == 0.0 ==> r == ZeroDivision
    ensures st.needsRebalance && price != 0.0 ==>
              r.Ok? && r.value.Adjust? &&
              // exact restoration: the adjustment cancels the divergence
              r.value.usdt + st.divergence == 0.0 &&
              r.value.quantity * price == Abs(st.divergence) &&
              (r.value.side == Buy <==> st.divergence < 0.0) &&
              r.value.currentDivergence == st.divergence && r.value.targetDelta == desired
  {
    if !st.needsRebalance then Ok(NoAdjustment)
    else if price == 0.0 then ZeroDivision
    else
      var adj := -st.divergence;
      Ok(Adjust(adj, Abs(adj) / price, if adj > 0.0 then Buy else Sell, st.divergence, desired))
  }

  /** Applying the adjustment to the futures leg brings the total delta back to
      the desired one. */
  lemma AdjustmentRestoresDesired(st: Status, desired: real, price: real)
    requires st.totalDelta == st.futuresUsdt + st.spotUsdt
    requires st.divergence == st.totalDelta - desired
    requires st.needsRebalance && price != 0.0
    ensures FuturesAdjustment(st, desired, price).Ok?
    ensures var a := FuturesAdjustment(st, desired, price).value;
            a.Adjust? && (st.futuresUsdt + a.usdt) + st.spotUsdt == desired
  {
  }

  class DeltaTracker {
    const baseSymbol: string
    const desired: real
    const threshold: real
    const timeout: real
    var lastFuturesUsdt: real
    var lastSpotUsdt: real
    var lastTotalDelta: real
    var lastSyncTime: real
    var isDiverging: bool
    var divergenceStart: Option<real>

    ghost predicate Valid()
      reads this
    {
      Coherent(Timer())
    }

    function Timer(): Divergence
      reads this
    {
      Divergence(isDiverging, divergenceStart)
    }

    constructor (symbol: string, desired: Option<real>, threshold: Option<real>, timeout: Option<real>)
      ensures Valid()
      ensures baseSymbol == DE.BaseSymbolOf(symbol)
      ensures this.desired == Setting(desired, DEFAULT_DESIRED_DELTA_USDT)
      ensures this.threshold == Setting(threshold, DEFAULT_DIVERGENCE_THRESHOLD_USDT)
      ensures this.timeout == Setting(timeout, DEFAULT_DIVERGENCE_TIMEOUT_SECONDS)
      ensures lastFuturesUsdt == 0.0 && lastSpotUsdt == 0.0 && lastTotalDelta == 0.0 && lastSyncTime == 0.0
      ensures !isDiverging && divergenceStart == None
    {
      baseSymbol := DE.BaseSymbolOf(symbol);
      this.desired := Setting(desired, DEFAULT_DESIRED_DELTA_USDT);
      this.threshold := Setting(threshold, DEFAULT_DIVERGENCE_THRESHOLD_USDT);
      this.timeout := Setting(timeout, DEFAULT_DIVERGENCE_TIMEOUT_SECONDS);
      lastFuturesUsdt := 0.0;
      lastSpotUsdt := 0.0;
      lastTotalDelta := 0.0;
      lastSyncTime := 0.0;
      isDiverging := false;
      divergenceStart := None;
    }

    /** _update_divergence_tracking. */
    method UpdateDivergenceTracking(magnitude: real, now: real)
      modifies this`isDiverging, this`divergenceStart
      ensures Timer() == TrackDivergence(old(Timer()), magnitude, threshold, now)
    {
      var above := magnitude > threshold;
      if above && !isDiverging {
        isDiverging := true;
        divergenceStart := Some(now);
      } else if !above && isDiverging {
        isDiverging := false;
        divergenceStart := None;
      }
    }

    /** sync_positions, with the futures and spot exposures in USDT as inputs. */
    method SyncPositions(futuresUsdt: real, spotUsdt: real, now: real) returns (st: Status)
      requires Valid()
      modifies this
      ensures Valid()
      ensures lastFuturesUsdt == futuresUsdt && lastSpotUsdt == spotUsdt
      ensures lastTotalDelta == futuresUsdt + spotUsdt && lastSyncTime == now
      ensures Timer() == TrackDivergence(old(Timer()), Abs(futuresUsdt + spotUsdt - desired), threshold, now)
      ensures st == Report(futuresUsdt, spotUsdt, futuresUsdt + spotUsdt, desired, Timer(),
                           threshold, timeout, now, now, None)
    {
      var total := futuresUsdt + spotUsdt;
      var divergence := total - desired;
      lastFuturesUsdt := futuresUsdt;
      lastSpotUsdt := spotUsdt;
      lastTotalDelta := total;
      lastSyncTime := now;
      UpdateDivergenceTracking(Abs(divergence), now);
      st := Status(futuresUsdt, spotUsdt, total, desired, divergence, Abs(divergence), isDiverging,
                   Duration(Timer(), now), NeedsRebalance(Timer(), divergence, threshold, timeout, now),
                   now, None);
    }

    /** The status get_status reports without a price: the last synced values,
        with the age of the last sync when there was one. */
    function CachedStatus(now: real): (st: Status)
      reads this
      ensures st.futuresUsdt == lastFuturesUsdt && st.spotUsdt == lastSpotUsdt
      ensures st.totalDelta == lastTotalDelta && st.syncTime == lastSyncTime
      ensures st.divergence == lastTotalDelta - desired
      ensures st.needsRebalance == NeedsRebalance(Timer(), lastTotalDelta - desired, threshold, timeout, now)
      ensures st.lastSyncAge == if lastSyncTime > 0.0 then Some(now - lastSyncTime) else None
    {
      Report(lastFuturesUsdt, lastSpotUsdt, lastTotalDelta, desired, Timer(), threshold, timeout, now,
             lastSyncTime, if lastSyncTime > 0.0 then Some(now - lastSyncTime) else None)
    }

    /** get_status. A missing or zero price reports the cached status and
        changes nothing; a price re-syncs with the given exposures. */
    method GetStatus(currentPrice: Option<real>, futuresUsdt: real, spotUsdt: real, now: real)
      returns (st: Status)
      requires Valid()
      modifies this
      ensures Valid()
      ensures (currentPrice.None? || currentPrice.value == 0.0) ==>
                unchanged(this) && st == CachedStatus(now)
      ensures currentPrice.Some? && currentPrice.value != 0.0 ==>
                lastTotalDelta == futuresUsdt + spotUsdt && lastSyncTime == now &&
                Timer() == TrackDivergence(old(Timer()), Abs(futuresUsdt + spotUsdt - desired), threshold, now) &&
                st == Report(futuresUsdt, spotUsdt, futuresUsdt + spotUsdt, desired, Timer(),
                             threshold, timeout, now, now, None)
    {
      if currentPrice.Some? && currentPrice.value != 0.0 {
        st := SyncPositions(futuresUsdt, spotUsdt, now);
      } else {
        st := CachedStatus(now);
      }
    }
  }

  /** A sync leaves the timer coherent and reports the exposures exactly:
      total = futures + spot, divergence = total - desired. */
  lemma SyncReportsExposure(futuresUsdt: real, spotUsdt: real, desired: real, d: Divergence,
                            threshold: real, timeout: real, now: real)
    requires Coherent(d)
    ensures var total := futuresUsdt + spotUsdt;
            var d' := TrackDivergence(d, Abs(total - desired), threshold, now);
            var st := Report(futuresUsdt, spotUsdt, total, desired, d', threshold, timeout, now, now, None);
            Coherent(d') && st.totalDelta == st.futuresUsdt + st.spotUsdt &&
            st.divergence == st.totalDelta - st.desired &&
            (st.needsRebalance ==> st.isDiverging && st.magnitude > threshold)
  {
  }
}
