// Exponential and simple moving averages as used by every EMA-based component
// of the bot: the smoothing factor 2/(period+1), one EMA step, an EMA run over a
// sequence of closes, and the arithmetic mean used as the seed.
module Ema {
  import opened Common

  /** The smoothing factor of a `period`-candle EMA. */
  function Alpha(period: int): (a: real)
    requires period >= 1
    ensures 0.0 < a <= 1.0
  {
    2.0 / (period + 1) as real
  }

  /** One EMA step: the new close weighted by `alpha`, the old value by `1 - alpha`.
      With `alpha` in [0, 1] the result lies between the old value and the close. */
  function EmaStep(prev: real, price: real, alpha: real): (r: real)
    ensures 0.0 <= alpha <= 1.0 ==> Min(prev, price) <= r <= Max(prev, price)
    ensures prev == price ==> r == price
  {
    assert price * alpha + prev * (1.0 - alpha) == prev + alpha * (price - prev);
    BetweenStep(prev, price, alpha);
    price * alpha + prev * (1.0 - alpha)
  }

  lemma BetweenStep(prev: real, price: real, alpha: real)
    ensures 0.0 <= alpha <= 1.0 ==> Min(prev, price) <= prev + alpha * (price - prev) <= Max(prev, price)
  {
    if 0.0 <= alpha <= 1.0 {
      var d := price - prev;
      if d >= 0.0 {
        MulNonneg(alpha, d);
        MulNonneg(1.0 - alpha, d);
      } else {
        MulNonneg(alpha, -d);
        MulNonneg(1.0 - alpha, -d);
      }
    }
  }

  /** The EMA after feeding `closes` in order, starting from `seed`. */
  function EmaRun(seed: real, closes: seq<real>, alpha: real): real
    decreases |closes|
  {
    if closes == [] then seed
    else EmaStep(EmaRun(seed, closes[..|closes| - 1], alpha), closes[|closes| - 1], alpha)
  }

  /** Arithmetic mean of the first `period` closes (the SMA seed). */
  function Sma(closes: seq<real>, period: int): real
    requires 1 <= period <= |closes|
  {
    Sum(closes[..period]) / period as real
  }

  predicate AllWithin(xs: seq<real>, lo: real, hi: real)
  {
    forall i :: 0 <= i < |xs| ==> lo <= xs[i] <= hi
  }

  /** An EMA never leaves the range spanned by its seed and the closes fed to it. */
  lemma {:induction false} EmaRunWithin(seed: real, closes: seq<real>, alpha: real, lo: real, hi: real)
    requires 0.0 <= alpha <= 1.0 && lo <= seed <= hi && AllWithin(closes, lo, hi)
    ensures lo <= EmaRun(seed, closes, alpha) <= hi
    decreases |closes|
  {
    if closes != [] {
      var init := closes[..|closes| - 1];
      assert AllWithin(init, lo, hi) by {
        forall i | 0 <= i < |init| ensures lo <= init[i] <= hi { assert init[i] == closes[i]; }
      }
      EmaRunWithin(seed, init, alpha, lo, hi);
    }
  }

  /** Feeding closes equal to the current value leaves the EMA where it is. */
  lemma {:induction false} EmaRunConstant(c: real, closes: seq<real>, alpha: real)
    requires AllWithin(closes, c, c)
    ensures EmaRun(c, closes, alpha) == c
    decreases |closes|
  {
    if closes != [] {
      var init := closes[..|closes| - 1];
      assert AllWithin(init, c, c) by {
        forall i | 0 <= i < |init| ensures c <= init[i] <= c { assert init[i] == closes[i]; }
      }
      EmaRunConstant(c, init, alpha);
    }
  }

  /** One more close of a prefix is one more EMA step. */
  lemma EmaRunPrefix(seed: real, closes: seq<real>, i: int, alpha: real)
    requires 0 <= i < |closes|
    ensures EmaRun(seed, closes[..i + 1], alpha) == EmaStep(EmaRun(seed, closes[..i], alpha), closes[i], alpha)
  {
    assert closes[..i + 1][..i] == closes[..i];
  }

  /** Feeding two batches of closes one after the other is feeding their concatenation. */
  lemma {:induction false} EmaRunAppend(seed: real, xs: seq<real>, ys: seq<real>, alpha: real)
    ensures EmaRun(seed, xs + ys, alpha) == EmaRun(EmaRun(seed, xs, alpha), ys, alpha)
    decreases |ys|
  {
    if ys == [] {
      assert xs + ys == xs;
    } else {
      assert (xs + ys)[..|xs + ys| - 1] == xs + ys[..|ys| - 1];
      EmaRunAppend(seed, xs, ys[..|ys| - 1], alpha);
    }
  }

  lemma {:induction false} SumWithin(xs: seq<real>, lo: real, hi: real)
    requires AllWithin(xs, lo, hi)
    ensures |xs| as real * lo <= Sum(xs) <= |xs| as real * hi
    decreases |xs|
  {
    if xs != [] {
      var init := xs[..|xs| - 1];
      assert AllWithin(init, lo, hi) by {
        forall i | 0 <= i < |init| ensures lo <= init[i] <= hi { assert init[i] == xs[i]; }
      }
      SumWithin(init, lo, hi);
      assert |xs| as real * lo == |init| as real * lo + lo;
      assert |xs| as real * hi == |init| as real * hi + hi;
    }
  }

  /** The SMA seed lies between the lowest and the highest of the closes it averages. */
  lemma SmaWithin(closes: seq<real>, period: int, lo: real, hi: real)
    requires 1 <= period <= |closes| && AllWithin(closes, lo, hi)
    ensures lo <= Sma(closes, period) <= hi
  {
    var xs := closes[..period];
    assert AllWithin(xs, lo, hi) by {
      forall i | 0 <= i < |xs| ensures lo <= xs[i] <= hi { assert xs[i] == closes[i]; }
    }
    SumWithin(xs, lo, hi);
    var n := period as real;
    assert n * lo <= Sum(xs) <= n * hi;
    DivWithin(Sum(xs), n, lo, hi);
  }

  /** The last `n` closes, all of them when there are fewer: the slice `closes[-n:]`. */
  function Tail(closes: seq<real>, n: int): (r: seq<real>)
    requires n >= 1
    ensures |r| == if n < |closes| then n else |closes|
    ensures r == closes[|closes| - |r|..]
  {
    if n < |closes| then closes[|closes| - n..] else closes
  }

  /** How many of the latest closes the legacy warm-up feeds through the EMA. */
  const WARMUP_CLOSES := 50

  /** The legacy warm-up: the mean seed over the last `period` closes (divided by
      `period` even when fewer closes exist), then the EMA recursion over the
      last fifty closes, which the seed already includes. */
  function WarmedEma(closes: seq<real>, period: int): real
    requires period >= 1
  {
    EmaRun(Sum(Tail(closes, period)) / period as real, Tail(closes, WARMUP_CLOSES), Alpha(period))
  }

  lemma MeanWithin(xs: seq<real>, lo: real, hi: real)
    requires |xs| >= 1 && AllWithin(xs, lo, hi)
    ensures lo <= Sum(xs) / |xs| as real <= hi
  {
    SumWithin(xs, lo, hi);
    DivWithin(Sum(xs), |xs| as real, lo, hi);
  }

  /** With at least `period` closes, all within [lo, hi], the warmed EMA is too. */
  lemma WarmedEmaWithin(closes: seq<real>, period: int, lo: real, hi: real)
    requires 1 <= period <= |closes| && AllWithin(closes, lo, hi)
    ensures lo <= WarmedEma(closes, period) <= hi
  {
    var seed := Tail(closes, period);
    var last := Tail(closes, WARMUP_CLOSES);
    assert AllWithin(seed, lo, hi) by {
      forall i | 0 <= i < |seed| ensures lo <= seed[i] <= hi { assert seed[i] == closes[|closes| - |seed| + i]; }
    }
    assert AllWithin(last, lo, hi) by {
      forall i | 0 <= i < |last| ensures lo <= last[i] <= hi { assert last[i] == closes[|closes| - |last| + i]; }
    }
    assert |seed| == period;
    MeanWithin(seed, lo, hi);
    EmaRunWithin(Sum(seed) / period as real, last, Alpha(period), lo, hi);
  }
}
