// The diagnostic series helpers of the trend detector: an EMA series seeded by
// the SMA of the first `period` closes, and the SMA and EMA smoothing of a
// series with gaps (None entries).
module EmaSeries {
  import opened Common
  import opened Ema

  /** _compute_ema_series_seed_sma at index `i`: nothing before the seed, the SMA
      seed at `period - 1`, the EMA recursion after it. */
  function SeedSeriesAt(closes: seq<real>, period: int, i: int): Option<real>
    requires 1 <= period <= |closes| && 0 <= i < |closes|
  {
    if i < period - 1 then None
    else Some(EmaRun(Sma(closes, period), closes[period..i + 1], Alpha(period)))
  }

  /** Each entry after the seed is one EMA step from the entry before it. */
  lemma SeedSeriesRecurrence(closes: seq<real>, period: int, i: int)
    requires 1 <= period <= |closes| && period - 1 <= i < |closes| - 1
    ensures SeedSeriesAt(closes, period, i).Some?
    ensures SeedSeriesAt(closes, period, i + 1) ==
            Some(EmaStep(SeedSeriesAt(closes, period, i).value, closes[i + 1], Alpha(period)))
  {
    assert closes[period..i + 2][..i + 1 - period] == closes[period..i + 1];
  }

  /** _compute_ema_series_seed_sma. */
  method ComputeEmaSeriesSeedSma(closes: seq<real>, period: int) returns (series: seq<Option<real>>)
    ensures |series| == |closes|
    ensures |closes| == 0 || period <= 0 || |closes| < period ==>
              forall i :: 0 <= i < |series| ==> series[i] == None
    ensures 1 <= period <= |closes| ==>
              (forall i :: 0 <= i < |closes| ==> series[i] == SeedSeriesAt(closes, period, i)) &&
              (forall i :: 0 <= i < period - 1 ==> series[i] == None) &&
              series[period - 1] == Some(Sma(closes, period))
  {
    if |closes| == 0 || period <= 0 || |closes| < period {
      return seq(|closes|, _ => None);
    }
    var alpha := Alpha(period);
    series := seq(|closes|, _ => None);
    var ema := Sum(closes[..period]) / period as real;
    series := series[period - 1 := Some(ema)];
    var i := period;
    while i < |closes|
      invariant period <= i <= |closes| && |series| == |closes|
      invariant ema == EmaRun(Sma(closes, period), closes[period..i], alpha)
      invariant forall j :: 0 <= j < i ==> series[j] == SeedSeriesAt(closes, period, j)
      invariant forall j :: i <= j < |closes| ==> series[j] == None
    {
      assert closes[period..i + 1][..i - period] == closes[period..i];
      ema := EmaStep(ema, closes[i], alpha);
      series := series[i := Some(ema)];
      i := i + 1;
    }
  }

  /** The value an entry contributes to a running sum, and to a count. */
  function Val(o: Option<real>): real { if o.Some? then o.value else 0.0 }
  function Cnt(o: Option<real>): nat { if o.Some? then 1 else 0 }

  function SomeSum(s: seq<Option<real>>): real
  {
    if s == [] then 0.0 else SomeSum(s[..|s| - 1]) + Val(s[|s| - 1])
  }

  function SomeCount(s: seq<Option<real>>): nat
  {
    if s == [] then 0 else SomeCount(s[..|s| - 1]) + Cnt(s[|s| - 1])
  }

  lemma {:induction false} SomeDropFirst(s: seq<Option<real>>)
    requires |s| > 0
    ensures SomeSum(s) == Val(s[0]) + SomeSum(s[1..])
    ensures SomeCount(s) == Cnt(s[0]) + SomeCount(s[1..])
    decreases |s|
  {
    if |s| > 1 {
      var init := s[..|s| - 1];
      SomeDropFirst(init);
      assert init[1..] == s[1..][..|s[1..]| - 1];
    }
  }

  /** The count of present entries is at most the length, and reaches it
      exactly when every entry is present. */
  lemma {:induction false} SomeCountBound(s: seq<Option<real>>)
    ensures SomeCount(s) <= |s|
    ensures SomeCount(s) == |s| <==> forall j :: 0 <= j < |s| ==> s[j].Some?
    decreases |s|
  {
    if s != [] {
      var init := s[..|s| - 1];
      SomeCountBound(init);
      if SomeCount(s) == |s| {
        forall j | 0 <= j < |s| ensures s[j].Some? {
          if j < |s| - 1 { assert s[j] == init[j]; }
        }
      }
      if forall j :: 0 <= j < |s| ==> s[j].Some? {
        assert forall j :: 0 <= j < |init| ==> init[j].Some? by {
          forall j | 0 <= j < |init| ensures init[j].Some? { assert init[j] == s[j]; }
        }
      }
    }
  }

  /** Start of the window covering the first `n` entries: the last `window` of them. */
  function WinStart(n: int, window: int): int
  {
    if n > window then n - window else 0
  }

  /** _sma_of_series at index `i`: the mean of the last `window` entries up to
      `i` when all of them are present, otherwise nothing. */
  function SmaAt(series: seq<Option<real>>, window: int, i: int): Option<real>
    requires window >= 1 && 0 <= i < |series|
  {
    var sl := series[WinStart(i + 1, window)..i + 1];
    if SomeCount(sl) == window then Some(SomeSum(sl) / window as real) else None
  }

  /** An SMA entry is present exactly when a full window of present entries
      ends at it. */
  lemma SmaAtPresent(series: seq<Option<real>>, window: int, i: int)
    requires window >= 1 && 0 <= i < |series|
    ensures SmaAt(series, window, i).Some? <==>
              i + 1 >= window && forall j :: i + 1 - window <= j <= i ==> series[j].Some?
  {
    var lo := WinStart(i + 1, window);
    var sl := series[lo..i + 1];
    SomeCountBound(sl);
    if i + 1 >= window && forall j :: i + 1 - window <= j <= i ==> series[j].Some? {
      assert forall j :: 0 <= j < |sl| ==> sl[j].Some? by {
        forall j | 0 <= j < |sl| ensures sl[j].Some? { assert sl[j] == series[lo + j]; }
      }
    }
    if SomeCount(sl) == window {
      forall j | i + 1 - window <= j <= i ensures series[j].Some? {
        assert series[j] == sl[j - lo];
      }
    }
  }

  /** Moving the window end from i to i + 1 adds entry i and, once the window
      is full, drops entry i - window. */
  lemma SlideWindow(series: seq<Option<real>>, window: int, i: int)
    requires window >= 1 && 0 <= i < |series|
    ensures var cur := series[WinStart(i, window)..i];
            var next := series[WinStart(i + 1, window)..i + 1];
            SomeSum(next) == SomeSum(cur) + Val(series[i]) - (if i >= window then Val(series[i - window]) else 0.0) &&
            SomeCount(next) == SomeCount(cur) + Cnt(series[i]) - (if i >= window then Cnt(series[i - window]) else 0)
  {
    var grown := series[WinStart(i, window)..i + 1];
    assert grown[..|grown| - 1] == series[WinStart(i, window)..i];
    if i >= window {
      SomeDropFirst(grown);
      assert grown[1..] == series[WinStart(i + 1, window)..i + 1];
    } else {
      assert grown == series[WinStart(i + 1, window)..i + 1];
    }
  }

  /** _sma_of_series. */
  method SmaOfSeries(series: seq<Option<real>>, window: int) returns (out: seq<Option<real>>)
    ensures |out| == |series|
    ensures window <= 1 ==> out == series
    ensures window > 1 ==> forall i :: 0 <= i < |series| ==> out[i] == SmaAt(series, window, i)
  {
    if window <= 1 {
      return series;
    }
    out := seq(|series|, _ => None);
    var runSum := 0.0;
    var count := 0;
    var i := 0;
    while i < |series|
      invariant 0 <= i <= |series| && |out| == |series|
      invariant runSum == SomeSum(series[WinStart(i, window)..i])
      invariant count == SomeCount(series[WinStart(i, window)..i])
      invariant forall j :: 0 <= j < i ==> out[j] == SmaAt(series, window, j)
      invariant forall j :: i <= j < |series| ==> out[j] == None
    {
      SlideWindow(series, window, i);
      var v := series[i];
      if v.Some? {
        runSum := runSum + v.value;
        count := count + 1;
      }
      if i >= window && series[i - window].Some? {
        runSum := runSum - series[i - window].value;
        count := count - 1;
      }
      if count == window {
        out := out[i := Some(runSum / window as real)];
      }
      i := i + 1;
    }
  }

  /** The EMA of the present entries among `s`, seeded by the first of them. */
  function LastEma(s: seq<Option<real>>, alpha: real): Option<real>
  {
    if s == [] then None
    else
      var prev := LastEma(s[..|s| - 1], alpha);
      var v := s[|s| - 1];
      if v.None? then prev
      else if prev.None? then v
      else Some(EmaStep(prev.value, v.value, alpha))
  }

  /** _ema_of_series at index `i`: nothing where the input has nothing, else the
      EMA of the present entries so far. */
  function EmaAt(series: seq<Option<real>>, alpha: real, i: int): Option<real>
    requires 0 <= i < |series|
  {
    if series[i].None? then None else LastEma(series[..i + 1], alpha)
  }

  lemma {:induction false} LastEmaAllAbsent(s: seq<Option<real>>, alpha: real)
    requires forall j :: 0 <= j < |s| ==> s[j].None?
    ensures LastEma(s, alpha) == None
    decreases |s|
  {
    if s != [] {
      var init := s[..|s| - 1];
      assert forall j :: 0 <= j < |init| ==> init[j].None? by {
        forall j | 0 <= j < |init| ensures init[j].None? { assert init[j] == s[j]; }
      }
      LastEmaAllAbsent(init, alpha);
    }
  }

  /** The first present entry of the smoothed series equals its input. */
  lemma FirstValueKept(series: seq<Option<real>>, alpha: real, i: int)
    requires 0 <= i < |series| && series[i].Some?
    requires forall j :: 0 <= j < i ==> series[j].None?
    ensures EmaAt(series, alpha, i) == series[i]
  {
    var s := series[..i + 1];
    assert s[..|s| - 1] == series[..i];
    LastEmaAllAbsent(series[..i], alpha);
  }

  /** _ema_of_series. */
  method EmaOfSeries(series: seq<Option<real>>, period: int) returns (out: seq<Option<real>>)
    ensures |out| == |series|
    ensures period <= 1 ==> out == series
    ensures period > 1 ==> forall i :: 0 <= i < |series| ==> out[i] == EmaAt(series, Alpha(period), i)
    ensures forall i :: 0 <= i < |series| ==> (out[i].None? <==> series[i].None?)
  {
    if period <= 1 {
      return series;
    }
    var alpha := Alpha(period);
    out := seq(|series|, _ => None);
    var ema: Option<real> := None;
    var i := 0;
    while i < |series|
      invariant 0 <= i <= |series| && |out| == |series|
      invariant ema == LastEma(series[..i], alpha)
      invariant forall j :: 0 <= j < i ==> out[j] == EmaAt(series, alpha, j)
      invariant forall j :: 0 <= j < i ==> (out[j].None? <==> series[j].None?)
      invariant forall j :: i <= j < |series| ==> out[j] == None
    {
      assert series[..i + 1][..i] == series[..i];
      var v := series[i];
      if v.None? {
        i := i + 1;
        continue;
      }
      if ema.None? {
        ema := v;
      } else {
        ema := Some(EmaStep(ema.value, v.value, alpha));
      }
      out := out[i := ema];
      i := i + 1;
    }
  }
}
