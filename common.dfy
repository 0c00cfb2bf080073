// Shared vocabulary of the model: optional values, arithmetic outcomes that can
// fail the way Python's division does, and the real-valued helpers (abs, min,
// max, clamp, sign, rounding) that every component of the bot uses.
module Common {

  datatype Option<T> = None | Some(value: T)

  /** The result of an expression that Python evaluates unless it divides by zero. */
  datatype Outcome<T> = Ok(value: T) | ZeroDivision

  /** The side of a spot or futures order. */
  datatype Side = Buy | Sell

  function Abs(x: real): (r: real)
    ensures r >= 0.0 && (r == x || r == -x)
  {
    if x < 0.0 then -x else x
  }

  function Max(a: real, b: real): (r: real)
    ensures r >= a && r >= b && (r == a || r == b)
  {
    if a >= b then a else b
  }

  function Min(a: real, b: real): (r: real)
    ensures r <= a && r <= b && (r == a || r == b)
  {
    if a <= b then a else b
  }

  /** Python's `max(lo, min(hi, x))`. */
  function Clamp(x: real, lo: real, hi: real): (r: real)
    requires lo <= hi
    ensures lo <= r <= hi
    ensures lo <= x <= hi ==> r == x
    ensures x < lo ==> r == lo
    ensures x > hi ==> r == hi
  {
    Max(lo, Min(hi, x))
  }

  /** 1 for a positive value, -1 for a negative one, 0 for zero. */
  function Sign(x: real): (r: int)
    ensures r == 1 <==> x > 0.0
    ensures r == -1 <==> x < 0.0
    ensures r == 0 <==> x == 0.0
  {
    if x > 0.0 then 1 else if x < 0.0 then -1 else 0
  }

  /** Python's `int(x)` on a float: truncation toward zero. */
  function Trunc(x: real): (r: int)
    ensures x >= 0.0 ==> r as real <= x < r as real + 1.0
    ensures x < 0.0 ==> r as real - 1.0 < x <= r as real
  {
    if x >= 0.0 then x.Floor else -((-x).Floor)
  }

  /** Python's `round(x)` to an integer: half-way cases go to the even neighbour. */
  function RoundHalfEven(x: real): (r: int)
    ensures Abs(x - r as real) <= 0.5
    ensures Abs(x - r as real) == 0.5 ==> r % 2 == 0
  {
    var f := x.Floor;
    var frac := x - f as real;
    if frac < 0.5 then f
    else if frac > 0.5 then f + 1
    else if f % 2 == 0 then f
    else f + 1
  }

  function Sum(s: seq<real>): real
  {
    if s == [] then 0.0 else Sum(s[..|s| - 1]) + s[|s| - 1]
  }

  lemma {:induction false} SumAppend(s: seq<real>, t: seq<real>)
    ensures Sum(s + t) == Sum(s) + Sum(t)
  {
    if t == [] {
      assert s + t == s;
    } else {
      assert (s + t)[..|s + t| - 1] == s + t[..|t| - 1];
      SumAppend(s, t[..|t| - 1]);
    }
  }

  lemma {:induction false} SumDropFirst(s: seq<real>)
    requires |s| > 0
    ensures Sum(s) == s[0] + Sum(s[1..])
  {
    assert s == [s[0]] + s[1..];
    SumAppend([s[0]], s[1..]);
    assert [s[0]][..0] == [];
  }

  /** Small sequence facts the loop proofs need at each step. */
  lemma AppendAssoc<T>(a: seq<T>, b: seq<T>, c: seq<T>)
    ensures a + (b + c) == (a + b) + c
  {
  }

  lemma PrefixStep<T>(s: seq<T>, i: int)
    requires 0 <= i < |s|
    ensures s[..i + 1][..i] == s[..i] && s[..i + 1] == s[..i] + [s[i]]
  {
  }

  lemma PrefixAll<T>(s: seq<T>)
    ensures s[..|s|] == s
  {
  }

  lemma SliceToEnd<T>(s: seq<T>, lo: int)
    requires 0 <= lo <= |s|
    ensures s[lo..|s|] == s[lo..] && s[lo..lo] == []
  {
  }

  /** Extending a slice by one index appends that element. */
  lemma SliceExtend<T>(s: seq<T>, lo: int, hi: int)
    requires 0 <= lo <= hi < |s|
    ensures s[lo..hi + 1] == s[lo..hi] + [s[hi]]
  {
    assert (s[lo..hi] + [s[hi]])[hi - lo] == s[hi];
  }

  lemma MulNonneg(a: real, b: real)
    requires a >= 0.0 && b >= 0.0
    ensures a * b >= 0.0
  {
  }

  /** If `n * lo <= s <= n * hi` with `n > 0`, the quotient `s / n` lies in [lo, hi]. */
  lemma DivWithin(s: real, n: real, lo: real, hi: real)
    requires n > 0.0 && n * lo <= s <= n * hi
    ensures lo <= s / n <= hi
  {
    assert s / n - lo == (s - n * lo) / n;
    assert hi - s / n == (n * hi - s) / n;
  }

  /** `qty` rounded to the nearest multiple of `step` (Python `round(qty / step) * step`). */
  function NearestStep(qty: real, step: real): (m: real)
    requires step != 0.0
    ensures m == RoundHalfEven(qty / step) as real * step
    ensures step > 0.0 ==> Abs(qty - m) <= step / 2.0
  {
    var k := RoundHalfEven(qty / step);
    assert step > 0.0 ==> Abs(qty - k as real * step) <= step / 2.0 by {
      if step > 0.0 { ScaledRoundingError(qty, step, k); }
    }
    k as real * step
  }

  lemma ScaledRoundingError(qty: real, step: real, k: int)
    requires step > 0.0 && Abs(qty / step - k as real) <= 0.5
    ensures Abs(qty - k as real * step) <= step / 2.0
  {
    var d := qty / step - k as real;
    assert qty == step * (qty / step);
    assert qty - k as real * step == step * d;
    if d >= 0.0 {
      assert step * d <= step * 0.5 by { assert step * (0.5 - d) >= 0.0 by { MulNonneg(step, 0.5 - d); } }
      MulNonneg(step, d);
    } else {
      assert step * (-d) <= step * 0.5 by { assert step * (0.5 + d) >= 0.0 by { MulNonneg(step, 0.5 + d); } }
      MulNonneg(step, -d);
    }
  }
}
