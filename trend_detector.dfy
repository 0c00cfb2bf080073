// The trend detector: two EMAs on closed candles, each seeded by the SMA of its
// first `period` closes and optionally smoothed (a rolling mean over a bounded
// window with a running sum, or a second EMA), classified into a trend with
// cross detection; and the diagnostic series helpers.
module TrendDetector {
  import opened Common
  import opened Ema

  datatype Trend = Uptrend | Downtrend | Ranging

  /** The smoothing setting, already lower-cased; any other name smooths nothing. */
  datatype Smoothing = NoSmoothing | SmaSmoothing | EmaSmoothing | OtherSmoothing

  datatype Config = Config(fastPeriod: int, slowPeriod: int, smoothing: Smoothing,
                           windowFast: int, windowSlow: int, thresholdPct: real)

  /** Both streams can be seeded and updated. */
  predicate ConfigOk(c: Config)
  {
    c.fastPeriod >= 1 && c.slowPeriod >= 1 && c.windowFast >= 1 && c.windowSlow >= 1
  }

  /** One stream can be seeded and walked: its period and its window are at least 1. */
  predicate StreamCfgOk(c: Config, isFast: bool)
  {
    Period(c, isFast) >= 1 && Window(c, isFast) >= 1
  }

  /** What the constructor leaves: periods and windows of at least 0, and a
      window of at least 1 for a period of at least 1 (the window falls back to
      the period). */
  predicate ConfigSane(c: Config)
  {
    c.fastPeriod >= 0 && c.slowPeriod >= 0 && c.windowFast >= 0 && c.windowSlow >= 0 &&
    (c.fastPeriod >= 1 ==> c.windowFast >= 1) && (c.slowPeriod >= 1 ==> c.windowSlow >= 1)
  }

  /** A raw EMA is seeded only for a period of at least 1: seeding with a period
      of 0 raises before anything is assigned. */
  predicate SeededOk(st: DetectorState, c: Config)
  {
    ConfigSane(c) && (st.fast.raw.Some? ==> c.fastPeriod >= 1) && (st.slow.raw.Some? ==> c.slowPeriod >= 1)
  }

  /** `smoothing_window or period`: an absent or zero window falls back to the period. */
  function WindowSize(w: Option<int>, period: int): (r: int)
    ensures w.Some? && w.value != 0 ==> r == w.value
    ensures w.None? || w.value == 0 ==> r == period
  {
    if w.Some? && w.value != 0 then w.value else period
  }

  /** One EMA stream: the raw EMA, the bounded window of raw values with its
      running sum, and the second-level EMA used for EMA smoothing. */
  datatype Stream = Stream(raw: Option<real>, window: seq<real>, sum: real, smooth: Option<real>)

  datatype DetectorState = DetectorState(fast: Stream, slow: Stream, emaFast: Option<real>, emaSlow: Option<real>,
                                         trend: Trend, previousTrend: Trend, crossDetected: bool)

  /** The window never exceeds its capacity and the running sum is its sum. */
  predicate WindowOk(s: Stream, cap: int)
  {
    |s.window| <= cap && s.sum == Sum(s.window)
  }

  function Period(c: Config, isFast: bool): int { if isFast then c.fastPeriod else c.slowPeriod }
  function Window(c: Config, isFast: bool): int { if isFast then c.windowFast else c.windowSlow }
  function StreamOf(st: DetectorState, isFast: bool): Stream { if isFast then st.fast else st.slow }
  function EmaOf(st: DetectorState, isFast: bool): Option<real> { if isFast then st.emaFast else st.emaSlow }
  function WithStream(st: DetectorState, isFast: bool, s: Stream): DetectorState
  {
    if isFast then st.(fast := s) else st.(slow := s)
  }

  predicate StreamsOk(st: DetectorState, c: Config)
  {
    WindowOk(st.fast, c.windowFast) && WindowOk(st.slow, c.windowSlow)
  }

  /** The last `n` elements of `s` (all of them when there are fewer). */
  function Last(s: seq<real>, n: nat): seq<real>
  {
    if |s| <= n then s else s[|s| - n..]
  }

  /** Appending to a deque bounded by `cap`: the oldest element drops out when it is full. */
  function Push(w: seq<real>, x: real, cap: int): (r: seq<real>)
    requires cap >= 1
    ensures |w| < cap ==> r == w + [x]
    ensures |w| == cap ==> r == w[1..] + [x]
    ensures 0 < |r| <= cap && r[|r| - 1] == x
  {
    Last(w + [x], cap)
  }

  lemma PushSum(w: seq<real>, x: real, cap: int)
    requires cap >= 1 && |w| <= cap
    ensures Sum(Push(w, x, cap)) == (if |w| == cap then Sum(w) - w[0] else Sum(w)) + x
  {
    if |w| == cap {
      SumDropFirst(w);
      SumAppend(w[1..], [x]);
    } else {
      SumAppend(w, [x]);
    }
    assert Sum([x]) == x by { assert [x][..0] == []; }
  }

  /** The window update of lines that append the latest raw EMA: subtract the
      element about to drop out, append, add the new value. */
  function AppendRaw(s: Stream, cap: int): (r: Stream)
    requires cap >= 1 && s.raw.Some?
    ensures r.raw == s.raw && r.smooth == s.smooth
    ensures r.window == Push(s.window, s.raw.value, cap)
    ensures WindowOk(s, cap) ==> WindowOk(r, cap)
  {
    var x := s.raw.value;
    var sum := if |s.window| == cap then s.sum - s.window[0] else s.sum;
    assert WindowOk(s, cap) ==> Sum(Push(s.window, x, cap)) == sum + x by {
      if WindowOk(s, cap) { PushSum(s.window, x, cap); }
    }
    s.(window := Push(s.window, x, cap), sum := sum + x)
  }

  /** The second-level EMA: the raw value itself first, then EMA steps toward it. */
  function EmaSmoothStep(smooth: Option<real>, raw: real, window: int): (r: real)
    requires window >= 1
    ensures smooth.None? ==> r == raw
    ensures smooth.Some? ==> Min(smooth.value, raw) <= r <= Max(smooth.value, raw)
  {
    if smooth.None? then raw else EmaStep(smooth.value, raw, Alpha(window))
  }

  /** _apply_smoothing_after_append for one stream. */
  function ApplySmoothing(st: DetectorState, c: Config, isFast: bool): (r: DetectorState)
    requires StreamCfgOk(c, isFast) && StreamOf(st, isFast).raw.Some?
    ensures r.fast.raw == st.fast.raw && r.slow.raw == st.slow.raw
    ensures r.fast.window == st.fast.window && r.fast.sum == st.fast.sum
    ensures r.slow.window == st.slow.window && r.slow.sum == st.slow.sum
    ensures StreamOf(r, !isFast) == StreamOf(st, !isFast)
    ensures r.trend == st.trend && r.previousTrend == st.previousTrend && r.crossDetected == st.crossDetected
    ensures c.smoothing != NoSmoothing ==> EmaOf(r, !isFast) == EmaOf(st, !isFast)
    ensures c.smoothing == NoSmoothing ==> r.emaFast == st.fast.raw && r.emaSlow == st.slow.raw
    // SMA smoothing: the mean of a full window, the raw EMA before the window fills
    ensures c.smoothing == SmaSmoothing && WindowOk(StreamOf(st, isFast), Window(c, isFast)) ==>
              var s := StreamOf(st, isFast);
              EmaOf(r, isFast) == if |s.window| == Window(c, isFast)
                                  then Some(Sum(s.window) / Window(c, isFast) as real) else s.raw
    // EMA smoothing: the value in use is the new second-level EMA
    ensures c.smoothing == EmaSmoothing ==>
              var s := StreamOf(st, isFast);
              StreamOf(r, isFast).smooth == EmaOf(r, isFast) &&
              EmaOf(r, isFast) == Some(EmaSmoothStep(s.smooth, s.raw.value, Window(c, isFast)))
    ensures c.smoothing == OtherSmoothing ==> r == st
  {
    match c.smoothing
    case NoSmoothing => st.(emaFast := st.fast.raw, emaSlow := st.slow.raw)
    case SmaSmoothing =>
      var s := StreamOf(st, isFast);
      var w := Window(c, isFast);
      var v := if |s.window| == w then Some(s.sum / w as real) else s.raw;
      if isFast then st.(emaFast := v) else st.(emaSlow := v)
    case EmaSmoothing =>
      var s := StreamOf(st, isFast);
      var sm := EmaSmoothStep(s.smooth, s.raw.value, Window(c, isFast));
      var st' := WithStream(st, isFast, s.(smooth := Some(sm)));
      if isFast then st'.(emaFast := Some(sm)) else st'.(emaSlow := Some(sm))
    case OtherSmoothing => st
  }

  /** _seed_ema: the SMA of the first `period` closes, and the index after them. */
  function SeedEma(closes: seq<real>, period: int): (r: (real, int))
    requires 1 <= period <= |closes|
    ensures r.1 == period
    ensures r.0 * period as real == Sum(closes[..period])
  {
    (Sma(closes, period), period)
  }

  /** Seeding one stream in initialize: the SMA seed alone in a cleared window. */
  function Seed(st: DetectorState, c: Config, isFast: bool, closes: seq<real>): (r: DetectorState)
    requires StreamCfgOk(c, isFast) && Period(c, isFast) <= |closes|
    ensures StreamOf(r, isFast).raw == Some(Sma(closes, Period(c, isFast)))
    ensures StreamOf(r, isFast).window == [Sma(closes, Period(c, isFast))]
    ensures WindowOk(StreamOf(r, isFast), Window(c, isFast))
    ensures StreamOf(r, !isFast) == StreamOf(st, !isFast)
    ensures r.trend == st.trend && r.previousTrend == st.previousTrend && r.crossDetected == st.crossDetected
  {
    var seed := SeedEma(closes, Period(c, isFast)).0;
    assert Sum([seed]) == seed by { assert [seed][..0] == []; }
    var s := StreamOf(st, isFast).(raw := Some(seed), window := [seed], sum := 0.0 + seed);
    ApplySmoothing(WithStream(st, isFast, s), c, isFast)
  }

  /** One close of the walk in initialize: a raw EMA step, the window update and
      the smoothing. */
  function WalkStep(st: DetectorState, c: Config, isFast: bool, price: real): (r: DetectorState)
    requires StreamCfgOk(c, isFast) && StreamOf(st, isFast).raw.Some?
    ensures StreamOf(r, isFast).raw == Some(EmaStep(StreamOf(st, isFast).raw.value, price, Alpha(Period(c, isFast))))
    ensures WindowOk(StreamOf(st, isFast), Window(c, isFast)) ==> WindowOk(StreamOf(r, isFast), Window(c, isFast))
    ensures StreamOf(r, !isFast) == StreamOf(st, !isFast)
    ensures r.trend == st.trend && r.previousTrend == st.previousTrend && r.crossDetected == st.crossDetected
  {
    var s := StreamOf(st, isFast);
    var raw := EmaStep(s.raw.value, price, Alpha(Period(c, isFast)));
    var s1 := AppendRaw(s.(raw := Some(raw)), Window(c, isFast));
    ApplySmoothing(WithStream(st, isFast, s1), c, isFast)
  }

  /** The walk of initialize over `closes`, oldest first. */
  function Walk(st: DetectorState, c: Config, isFast: bool, closes: seq<real>): (r: DetectorState)
    requires StreamCfgOk(c, isFast) && StreamOf(st, isFast).raw.Some?
    ensures StreamOf(r, isFast).raw.Some?
    ensures WindowOk(StreamOf(st, isFast), Window(c, isFast)) ==> WindowOk(StreamOf(r, isFast), Window(c, isFast))
    ensures StreamOf(r, !isFast) == StreamOf(st, !isFast)
    ensures r.trend == st.trend && r.previousTrend == st.previousTrend && r.crossDetected == st.crossDetected
    decreases |closes|
  {
    if closes == [] then st
    else WalkStep(Walk(st, c, isFast, closes[..|closes| - 1]), c, isFast, closes[|closes| - 1])
  }

  /** Walking one more close is one more walk step. */
  lemma WalkSnoc(st: DetectorState, c: Config, isFast: bool, closes: seq<real>, x: real)
    requires StreamCfgOk(c, isFast) && StreamOf(st, isFast).raw.Some?
    ensures Walk(st, c, isFast, closes + [x]) == WalkStep(Walk(st, c, isFast, closes), c, isFast, x)
  {
    assert (closes + [x])[..|closes + [x]| - 1] == closes;
  }

  /** The walk over one more close of a slice. */
  lemma WalkExtend(st: DetectorState, c: Config, isFast: bool, closes: seq<real>, from: int, i: int)
    requires StreamCfgOk(c, isFast) && StreamOf(st, isFast).raw.Some? && 0 <= from <= i < |closes|
    ensures Walk(st, c, isFast, closes[from..i + 1]) == WalkStep(Walk(st, c, isFast, closes[from..i]), c, isFast, closes[i])
  {
    SliceExtend(closes, from, i);
    WalkSnoc(st, c, isFast, closes[from..i], closes[i]);
  }

  /** The walk feeds the raw EMA exactly the EMA recursion over the closes. */
  lemma {:induction false} WalkRaw(st: DetectorState, c: Config, isFast: bool, closes: seq<real>)
    requires StreamCfgOk(c, isFast) && StreamOf(st, isFast).raw.Some?
    ensures StreamOf(Walk(st, c, isFast, closes), isFast).raw ==
            Some(EmaRun(StreamOf(st, isFast).raw.value, closes, Alpha(Period(c, isFast))))
    decreases |closes|
  {
    if closes != [] {
      WalkRaw(st, c, isFast, closes[..|closes| - 1]);
    }
  }

  /** Percentage distance between the EMAs; 0 unless the slow EMA is positive. */
  function DiffPct(fast: real, slow: real): (d: real)
    ensures d >= 0.0
    ensures slow <= 0.0 ==> d == 0.0
    ensures slow > 0.0 && fast == slow ==> d == 0.0
  {
    if slow > 0.0 then Abs((fast - slow) / slow) * 100.0 else 0.0
  }

  /** The trend of _update_trend. */
  function Classify(emaFast: Option<real>, emaSlow: Option<real>, thresholdPct: real): (t: Trend)
    ensures emaFast.None? || emaSlow.None? ==> t == Ranging
    ensures t == Uptrend <==>
              emaFast.Some? && emaSlow.Some? &&
              DiffPct(emaFast.value, emaSlow.value) >= thresholdPct && emaFast.value > emaSlow.value
    ensures t == Downtrend <==>
              emaFast.Some? && emaSlow.Some? &&
              DiffPct(emaFast.value, emaSlow.value) >= thresholdPct && emaFast.value < emaSlow.value
  {
    if emaFast.None? || emaSlow.None? then Ranging
    else
      var f := emaFast.value;
      var s := emaSlow.value;
      if DiffPct(f, s) >= thresholdPct then
        if f > s then Uptrend else if f < s then Downtrend else Ranging
      else Ranging
  }

  predicate Opposite(a: Trend, b: Trend)
  {
    (a == Uptrend && b == Downtrend) || (a == Downtrend && b == Uptrend)
  }

  /** _update_trend: the old trend becomes the previous one, the new one is
      classified, and a cross is flagged iff the trend flipped between up and down. */
  function UpdateTrend(st: DetectorState, thresholdPct: real): (r: DetectorState)
    ensures r.previousTrend == st.trend
    ensures r.trend == Classify(st.emaFast, st.emaSlow, thresholdPct)
    ensures r.crossDetected <==> Opposite(st.trend, r.trend)
    ensures r.crossDetected ==> r.trend != r.previousTrend
    ensures r.fast == st.fast && r.slow == st.slow && r.emaFast == st.emaFast && r.emaSlow == st.emaSlow
  {
    var t := Classify(st.emaFast, st.emaSlow, thresholdPct);
    if st.emaFast.None? || st.emaSlow.None? then st.(previousTrend := st.trend, trend := Ranging, crossDetected := false)
    else st.(previousTrend := st.trend, trend := t, crossDetected := Opposite(st.trend, t))
  }

  /** How initialize ends: it returns, or seeding with a period of 0 raises
      ZeroDivisionError, or the closing message, which formats both EMAs in use
      with four decimals, raises TypeError because one of them is still None
      (only possible with an unknown smoothing kind). */
  datatype InitOutcome = Completed | ZeroDivisionRaised | TypeErrorRaised

  /** initialize on values: the state reached and how the call ended. */
  function InitializeSpec(st: DetectorState, c: Config, closes: seq<real>): (r: (DetectorState, InitOutcome))
    requires ConfigSane(c)
    ensures |closes| == 0 || |closes| < c.fastPeriod || |closes| < c.slowPeriod ==> r == (st, Completed)
    ensures r.1 == ZeroDivisionRaised <==>
              |closes| > 0 && |closes| >= c.fastPeriod && |closes| >= c.slowPeriod &&
              (c.fastPeriod == 0 || c.slowPeriod == 0)
    // a period of 0 raises on seeding, after the whole fast stage when only the slow period is 0
    ensures r.1 == ZeroDivisionRaised && c.fastPeriod == 0 ==> r.0 == st
    ensures r.1 == ZeroDivisionRaised && c.fastPeriod >= 1 ==> r.0.slow == st.slow && r.0.fast.raw.Some?
    // a raise leaves the trend untouched
    ensures r.1 != Completed ==>
              r.0.trend == st.trend && r.0.previousTrend == st.previousTrend && r.0.crossDetected == st.crossDetected
    ensures StreamsOk(st, c) ==> StreamsOk(r.0, c)
    ensures SeededOk(st, c) ==> SeededOk(r.0, c)
  {
    var minRequired := if c.fastPeriod >= c.slowPeriod then c.fastPeriod else c.slowPeriod;
    if |closes| == 0 || |closes| < minRequired then (st, Completed)
    else if c.fastPeriod == 0 then (st, ZeroDivisionRaised)
    else
      var a := Walk(Seed(st, c, true, closes), c, true, closes[c.fastPeriod..]);
      if c.slowPeriod == 0 then (a, ZeroDivisionRaised)
      else
        var b := Walk(Seed(a, c, false, closes), c, false, closes[c.slowPeriod..]);
        if b.emaFast.None? || b.emaSlow.None? then (b, TypeErrorRaised)
        else (UpdateTrend(b, c.thresholdPct), Completed)
  }

  /** After initialize with enough closes and periods of at least 1, each raw EMA
      is its SMA seed fed every close after its own period; when the call
      returns, the trend is classified from the EMAs in use. */
  lemma InitializedRawEmas(st: DetectorState, c: Config, closes: seq<real>)
    requires ConfigOk(c) && |closes| >= c.fastPeriod && |closes| >= c.slowPeriod
    ensures var r := InitializeSpec(st, c, closes);
            r.1 != ZeroDivisionRaised &&
            r.0.fast.raw == Some(EmaRun(Sma(closes, c.fastPeriod), closes[c.fastPeriod..], Alpha(c.fastPeriod))) &&
            r.0.slow.raw == Some(EmaRun(Sma(closes, c.slowPeriod), closes[c.slowPeriod..], Alpha(c.slowPeriod))) &&
            (r.1 == Completed ==> r.0.trend == Classify(r.0.emaFast, r.0.emaSlow, c.thresholdPct) && r.0.previousTrend == st.trend)
  {
    var s1 := Seed(st, c, true, closes);
    WalkRaw(s1, c, true, closes[c.fastPeriod..]);
    var a := Walk(s1, c, true, closes[c.fastPeriod..]);
    assert a.fast.raw == Some(EmaRun(Sma(closes, c.fastPeriod), closes[c.fastPeriod..], Alpha(c.fastPeriod)));
    var s2 := Seed(a, c, false, closes);
    assert s2.fast == a.fast;
    WalkRaw(s2, c, false, closes[c.slowPeriod..]);
    var b := Walk(s2, c, false, closes[c.slowPeriod..]);
    assert b.fast == s2.fast;
    assert b.slow.raw == Some(EmaRun(Sma(closes, c.slowPeriod), closes[c.slowPeriod..], Alpha(c.slowPeriod)));
    assert InitializeSpec(st, c, closes) ==
           if b.emaFast.None? || b.emaSlow.None? then (b, TypeErrorRaised) else (UpdateTrend(b, c.thresholdPct), Completed);
  }

  /** Under a known smoothing kind the smoothing step sets the stream's EMA in
      use, and keeps the other stream's EMA in use set while its raw EMA is. */
  lemma SmoothingSetsEma(st: DetectorState, c: Config, isFast: bool)
    requires StreamCfgOk(c, isFast) && StreamOf(st, isFast).raw.Some? && c.smoothing != OtherSmoothing
    ensures var r := ApplySmoothing(st, c, isFast);
            EmaOf(r, isFast).Some? &&
            (EmaOf(st, !isFast).Some? && StreamOf(st, !isFast).raw.Some? ==> EmaOf(r, !isFast).Some?)
  {
  }

  lemma SeedSetsEma(st: DetectorState, c: Config, isFast: bool, closes: seq<real>)
    requires StreamCfgOk(c, isFast) && Period(c, isFast) <= |closes| && c.smoothing != OtherSmoothing
    ensures var r := Seed(st, c, isFast, closes);
            EmaOf(r, isFast).Some? &&
            (EmaOf(st, !isFast).Some? && StreamOf(st, !isFast).raw.Some? ==> EmaOf(r, !isFast).Some?)
  {
    var seed := SeedEma(closes, Period(c, isFast)).0;
    var s := StreamOf(st, isFast).(raw := Some(seed), window := [seed], sum := 0.0 + seed);
    SmoothingSetsEma(WithStream(st, isFast, s), c, isFast);
  }

  lemma {:induction false} WalkSetsEma(st: DetectorState, c: Config, isFast: bool, closes: seq<real>)
    requires StreamCfgOk(c, isFast) && StreamOf(st, isFast).raw.Some? && c.smoothing != OtherSmoothing
    requires EmaOf(st, isFast).Some?
    ensures var r := Walk(st, c, isFast, closes);
            EmaOf(r, isFast).Some? &&
            (EmaOf(st, !isFast).Some? && StreamOf(st, !isFast).raw.Some? ==> EmaOf(r, !isFast).Some?)
    decreases |closes|
  {
    if closes != [] {
      var prefix := closes[..|closes| - 1];
      WalkSetsEma(st, c, isFast, prefix);
      var w := Walk(st, c, isFast, prefix);
      var s := StreamOf(w, isFast);
      var raw := EmaStep(s.raw.value, closes[|closes| - 1], Alpha(Period(c, isFast)));
      var s1 := AppendRaw(s.(raw := Some(raw)), Window(c, isFast));
      SmoothingSetsEma(WithStream(w, isFast, s1), c, isFast);
    }
  }

  /** Under a known smoothing kind initialize with enough closes and periods of
      at least 1 always returns normally. */
  lemma KnownSmoothingCompletes(st: DetectorState, c: Config, closes: seq<real>)
    requires ConfigOk(c) && |closes| >= c.fastPeriod && |closes| >= c.slowPeriod && c.smoothing != OtherSmoothing
    ensures InitializeSpec(st, c, closes).1 == Completed
  {
    var s1 := Seed(st, c, true, closes);
    SeedSetsEma(st, c, true, closes);
    WalkSetsEma(s1, c, true, closes[c.fastPeriod..]);
    var a := Walk(s1, c, true, closes[c.fastPeriod..]);
    var s2 := Seed(a, c, false, closes);
    SeedSetsEma(a, c, false, closes);
    WalkSetsEma(s2, c, false, closes[c.slowPeriod..]);
  }

  /** Under an unknown smoothing kind nothing touches the EMAs in use. */
  lemma {:induction false} WalkUnknownKeepsEmas(st: DetectorState, c: Config, isFast: bool, closes: seq<real>)
    requires StreamCfgOk(c, isFast) && StreamOf(st, isFast).raw.Some? && c.smoothing == OtherSmoothing
    ensures var r := Walk(st, c, isFast, closes);
            r.emaFast == st.emaFast && r.emaSlow == st.emaSlow
    decreases |closes|
  {
    if closes != [] {
      WalkUnknownKeepsEmas(st, c, isFast, closes[..|closes| - 1]);
    }
  }

  /** Under an unknown smoothing kind initialize with enough closes and periods
      of at least 1 raises TypeError exactly when an EMA in use was None before
      the call, which is always the case on a fresh detector, and it leaves
      the EMAs in use as they were. */
  lemma UnknownSmoothingRaises(st: DetectorState, c: Config, closes: seq<real>)
    requires ConfigOk(c) && |closes| >= c.fastPeriod && |closes| >= c.slowPeriod && c.smoothing == OtherSmoothing
    ensures var r := InitializeSpec(st, c, closes);
            (r.1 == TypeErrorRaised <==> st.emaFast.None? || st.emaSlow.None?) &&
            r.0.emaFast == st.emaFast && r.0.emaSlow == st.emaSlow
  {
    var s1 := Seed(st, c, true, closes);
    WalkUnknownKeepsEmas(s1, c, true, closes[c.fastPeriod..]);
    var a := Walk(s1, c, true, closes[c.fastPeriod..]);
    var s2 := Seed(a, c, false, closes);
    WalkUnknownKeepsEmas(s2, c, false, closes[c.slowPeriod..]);
  }

  /** update_with_close on values. */
  function UpdateWithCloseSpec(st: DetectorState, c: Config, close: real): (r: DetectorState)
    requires SeededOk(st, c)
    ensures st.fast.raw.None? || st.slow.raw.None? ==> r == st
    ensures st.fast.raw.Some? && st.slow.raw.Some? ==>
              r.fast.raw == Some(EmaStep(st.fast.raw.value, close, Alpha(c.fastPeriod))) &&
              r.slow.raw == Some(EmaStep(st.slow.raw.value, close, Alpha(c.slowPeriod))) &&
              r.previousTrend == st.trend && r.trend == Classify(r.emaFast, r.emaSlow, c.thresholdPct)
    // the windows move only under SMA smoothing
    ensures c.smoothing != SmaSmoothing ==> r.fast.window == st.fast.window && r.slow.window == st.slow.window
    ensures StreamsOk(st, c) ==> StreamsOk(r, c)
    // without smoothing (or with an unknown kind) the raw EMAs are used directly
    ensures st.fast.raw.Some? && st.slow.raw.Some? &&
            (c.smoothing == NoSmoothing || c.smoothing == OtherSmoothing) ==>
              r.emaFast == r.fast.raw && r.emaSlow == r.slow.raw
  {
    if st.fast.raw.None? || st.slow.raw.None? then st
    else UpdateTrend(SmoothBoth(StepRaws(st, c, close), c), c.thresholdPct)
  }

  /** Both raw EMAs advanced by one close. */
  function StepRaws(st: DetectorState, c: Config, close: real): DetectorState
    requires ConfigOk(c) && st.fast.raw.Some? && st.slow.raw.Some?
  {
    var f := EmaStep(st.fast.raw.value, close, Alpha(c.fastPeriod));
    var s := EmaStep(st.slow.raw.value, close, Alpha(c.slowPeriod));
    st.(fast := st.fast.(raw := Some(f)), slow := st.slow.(raw := Some(s)))
  }

  /** The smoothing stage of an update, applied to both streams. */
  function SmoothBoth(st1: DetectorState, c: Config): DetectorState
    requires ConfigOk(c) && st1.fast.raw.Some? && st1.slow.raw.Some?
  {
    match c.smoothing
    case SmaSmoothing =>
      var a := ApplySmoothing(st1.(fast := AppendRaw(st1.fast, c.windowFast)), c, true);
      ApplySmoothing(a.(slow := AppendRaw(a.slow, c.windowSlow)), c, false)
    case EmaSmoothing => ApplySmoothing(ApplySmoothing(st1, c, true), c, false)
    case _ => st1.(emaFast := st1.fast.raw, emaSlow := st1.slow.raw)
  }

  class TrendDetector {
    const fastPeriod: int
    const slowPeriod: int
    const smoothing: Smoothing
    const windowFast: int
    const windowSlow: int
    const thresholdPct: real
    var fastRaw: Option<real>
    var slowRaw: Option<real>
    var emaFast: Option<real>
    var emaSlow: Option<real>
    var fastWindow: seq<real>
    var slowWindow: seq<real>
    var fastSum: real
    var slowSum: real
    var smoothFast: Option<real>
    var smoothSlow: Option<real>
    var trend: Trend
    var previousTrend: Trend
    var crossDetected: bool

    function Cfg(): Config
    {
      Config(fastPeriod, slowPeriod, smoothing, windowFast, windowSlow, thresholdPct)
    }

    function State(): DetectorState
      reads this
    {
      DetectorState(Stream(fastRaw, fastWindow, fastSum, smoothFast), Stream(slowRaw, slowWindow, slowSum, smoothSlow),
                    emaFast, emaSlow, trend, previousTrend, crossDetected)
    }

    ghost predicate Valid()
      reads this
    {
      SeededOk(State(), Cfg()) && StreamsOk(State(), Cfg())
    }

    constructor (fastPeriod: int, slowPeriod: int, smoothing: Smoothing,
                 windowFast: Option<int>, windowSlow: Option<int>, thresholdPct: real)
      requires fastPeriod >= 0 && slowPeriod >= 0
      requires windowFast.Some? ==> windowFast.value >= 0
      requires windowSlow.Some? ==> windowSlow.value >= 0
      ensures Valid()
      ensures Cfg() == Config(fastPeriod, slowPeriod, smoothing, WindowSize(windowFast, fastPeriod),
                              WindowSize(windowSlow, slowPeriod), thresholdPct)
      ensures State() == DetectorState(Stream(None, [], 0.0, None), Stream(None, [], 0.0, None),
                                       None, None, Ranging, Ranging, false)
    {
      this.fastPeriod := fastPeriod;
      this.slowPeriod := slowPeriod;
      this.smoothing := smoothing;
      this.windowFast := WindowSize(windowFast, fastPeriod);
      this.windowSlow := WindowSize(windowSlow, slowPeriod);
      this.thresholdPct := thresholdPct;
      fastRaw, slowRaw, emaFast, emaSlow := None, None, None, None;
      fastWindow, slowWindow, fastSum, slowSum := [], [], 0.0, 0.0;
      smoothFast, smoothSlow := None, None;
      trend, previousTrend, crossDetected := Ranging, Ranging, false;
    }

    /** _apply_smoothing_after_append. */
    method ApplySmoothingAfterAppend(isFast: bool)
      requires StreamCfgOk(Cfg(), isFast) && StreamOf(State(), isFast).raw.Some?
      modifies this
      ensures State() == ApplySmoothing(old(State()), Cfg(), isFast)
    {
      if smoothing == NoSmoothing {
        emaFast := fastRaw;
        emaSlow := slowRaw;
        return;
      }
      if smoothing == SmaSmoothing {
        if isFast {
          if |fastWindow| == windowFast {
            emaFast := Some(fastSum / windowFast as real);
          } else {
            emaFast := fastRaw;
          }
        } else {
          if |slowWindow| == windowSlow {
            emaSlow := Some(slowSum / windowSlow as real);
          } else {
            emaSlow := slowRaw;
          }
        }
        return;
      }
      if smoothing == EmaSmoothing {
        if isFast {
          if smoothFast.None? {
            smoothFast := fastRaw;
          } else {
            smoothFast := Some(EmaStep(smoothFast.value, fastRaw.value, Alpha(windowFast)));
          }
          emaFast := smoothFast;
        } else {
          if smoothSlow.None? {
            smoothSlow := slowRaw;
          } else {
            smoothSlow := Some(EmaStep(smoothSlow.value, slowRaw.value, Alpha(windowSlow)));
          }
          emaSlow := smoothSlow;
        }
      }
    }

    /** Append the latest raw EMA of one stream to its bounded window. */
    method AppendRawToWindow(isFast: bool)
      requires StreamCfgOk(Cfg(), isFast) && StreamOf(State(), isFast).raw.Some?
      modifies this`fastWindow, this`fastSum, this`slowWindow, this`slowSum
      ensures State() == WithStream(old(State()), isFast, AppendRaw(StreamOf(old(State()), isFast), Window(Cfg(), isFast)))
    {
      if isFast {
        var sum := if |fastWindow| == windowFast then fastSum - fastWindow[0] else fastSum;
        fastWindow, fastSum := Push(fastWindow, fastRaw.value, windowFast), sum + fastRaw.value;
      } else {
        var sum := if |slowWindow| == windowSlow then slowSum - slowWindow[0] else slowSum;
        slowWindow, slowSum := Push(slowWindow, slowRaw.value, windowSlow), sum + slowRaw.value;
      }
    }

    /** Seed one stream with the SMA of its first `period` closes. */
    method SeedStream(isFast: bool, closes: seq<real>)
      requires StreamCfgOk(Cfg(), isFast) && Period(Cfg(), isFast) <= |closes|
      modifies this
      ensures State() == Seed(old(State()), Cfg(), isFast, closes)
    {
      var seed := SeedEma(closes, if isFast then fastPeriod else slowPeriod).0;
      if isFast {
        fastRaw := Some(seed);
        fastWindow := [];
        fastSum := 0.0;
        fastWindow := fastWindow + [seed];
        fastSum := fastSum + seed;
      } else {
        slowRaw := Some(seed);
        slowWindow := [];
        slowSum := 0.0;
        slowWindow := slowWindow + [seed];
        slowSum := slowSum + seed;
      }
      ApplySmoothingAfterAppend(isFast);
    }

    /** One step of the walk of initialize: an EMA step of the raw stream, then
        the append to its window and the smoothing. */
    method WalkOne(isFast: bool, price: real)
      requires StreamCfgOk(Cfg(), isFast) && StreamOf(State(), isFast).raw.Some?
      modifies this
      ensures State() == WalkStep(old(State()), Cfg(), isFast, price)
    {
      var alpha := Alpha(Period(Cfg(), isFast));
      ghost var prev := State();
      ghost var s := StreamOf(prev, isFast);
      if isFast {
        fastRaw := Some(EmaStep(fastRaw.value, price, alpha));
      } else {
        slowRaw := Some(EmaStep(slowRaw.value, price, alpha));
      }
      ghost var s1 := s.(raw := Some(EmaStep(s.raw.value, price, alpha)));
      assert State() == WithStream(prev, isFast, s1);
      AppendRawToWindow(isFast);
      ghost var s2 := AppendRaw(s1, Window(Cfg(), isFast));
      assert State() == WithStream(prev, isFast, s2);
      ApplySmoothingAfterAppend(isFast);
      assert State() == ApplySmoothing(WithStream(prev, isFast, s2), Cfg(), isFast);
    }

    /** The walk of initialize over the closes from index `from` on. */
    method WalkFrom(isFast: bool, closes: seq<real>, from: int)
      requires StreamCfgOk(Cfg(), isFast) && StreamOf(State(), isFast).raw.Some? && 0 <= from <= |closes|
      modifies this
      ensures State() == Walk(old(State()), Cfg(), isFast, closes[from..])
    {
      ghost var st0 := State();
      SliceToEnd(closes, from);
      var i := from;
      while i < |closes|
        invariant from <= i <= |closes|
        invariant State() == Walk(st0, Cfg(), isFast, closes[from..i])
      {
        ghost var before := State();
        WalkOne(isFast, closes[i]);
        WalkExtend(st0, Cfg(), isFast, closes, from, i);
        assert State() == WalkStep(before, Cfg(), isFast, closes[i]);
        i := i + 1;
      }
    }

    /** _update_trend. */
    method UpdateTrendState()
      modifies this
      ensures State() == UpdateTrend(old(State()), thresholdPct)
    {
      previousTrend := trend;
      if emaFast.None? || emaSlow.None? {
        trend := Ranging;
        crossDetected := false;
        return;
      }
      var diffPct := if emaSlow.value > 0.0 then Abs((emaFast.value - emaSlow.value) / emaSlow.value) * 100.0 else 0.0;
      if diffPct >= thresholdPct {
        if emaFast.value > emaSlow.value {
          trend := Uptrend;
        } else if emaFast.value < emaSlow.value {
          trend := Downtrend;
        } else {
          trend := Ranging;
        }
      } else {
        trend := Ranging;
      }
      crossDetected := (previousTrend == Uptrend && trend == Downtrend) || (previousTrend == Downtrend && trend == Uptrend);
    }

    /** initialize, with the way the call ends as `outcome`. */
    method Initialize(closes: seq<real>) returns (outcome: InitOutcome)
      requires Valid()
      modifies this
      ensures Valid()
      ensures (State(), outcome) == InitializeSpec(old(State()), Cfg(), closes)
    {
      var minRequired := if fastPeriod >= slowPeriod then fastPeriod else slowPeriod;
      if |closes| == 0 || |closes| < minRequired {
        return Completed;
      }
      if fastPeriod == 0 {
        return ZeroDivisionRaised;
      }
      SeedStream(true, closes);
      WalkFrom(true, closes, fastPeriod);
      if slowPeriod == 0 {
        return ZeroDivisionRaised;
      }
      SeedStream(false, closes);
      WalkFrom(false, closes, slowPeriod);
      if emaFast.None? || emaSlow.None? {
        return TypeErrorRaised;
      }
      UpdateTrendState();
      return Completed;
    }

    /** The smoothing stage of update_with_close on both streams. */
    method SmoothStreams()
      requires ConfigOk(Cfg()) && fastRaw.Some? && slowRaw.Some?
      modifies this
      ensures State() == SmoothBoth(old(State()), Cfg())
    {
      if smoothing == SmaSmoothing {
        AppendRawToWindow(true);
        ApplySmoothingAfterAppend(true);
        AppendRawToWindow(false);
        ApplySmoothingAfterAppend(false);
      } else if smoothing == EmaSmoothing {
        ApplySmoothingAfterAppend(true);
        ApplySmoothingAfterAppend(false);
      } else {
        emaFast := fastRaw;
        emaSlow := slowRaw;
      }
    }

    /** update_with_close. */
    method UpdateWithClose(closePrice: real)
      requires Valid()
      modifies this
      ensures Valid()
      ensures State() == UpdateWithCloseSpec(old(State()), Cfg(), closePrice)
    {
      if fastRaw.None? || slowRaw.None? {
        return;
      }
      var alphaFast := Alpha(fastPeriod);
      var alphaSlow := Alpha(slowPeriod);
      ghost var st0 := State();
      fastRaw := Some(EmaStep(fastRaw.value, closePrice, alphaFast));
      slowRaw := Some(EmaStep(slowRaw.value, closePrice, alphaSlow));
      ghost var st1 := State();
      assert st1 == StepRaws(st0, Cfg(), closePrice);
      SmoothStreams();
      UpdateTrendState();
      ghost var r := UpdateWithCloseSpec(st0, Cfg(), closePrice);
      assert State() == r;
      assert StreamsOk(r, Cfg());
    }

    /** get_and_reset_cross: report the cross flag and clear it. */
    method GetAndResetCross() returns (cross: bool)
      modifies this`crossDetected
      ensures cross == old(crossDetected) && !crossDetected
    {
      cross := crossDetected;
      crossDetected := false;
    }
  }
}
