// The decimal-text helpers of the bot: how many decimals an instrument step
// such as "0.001" carries, and how a quantity (rounded down) or a price
// (rounded to nearest) is rendered with exactly that many decimals.
module Formatting {
  import opened Common

  /** The text after the first '.' of `s`. */
  function AfterDot(s: string): (r: string)
    requires '.' in s
    ensures |r| < |s|
  {
    if s[0] == '.' then s[1..] else AfterDot(s[1..])
  }

  /** The text of `s` up to its first '.', or all of it. */
  function UpToDot(s: string): (r: string)
    ensures '.' !in r
    ensures |r| <= |s|
    ensures '.' !in s ==> r == s
  {
    if s == [] then []
    else if s[0] == '.' then []
    else [s[0]] + UpToDot(s[1..])
  }

  /** get_qty_precision and get_price_precision (the two are the same):
      the length of the second field of `step.split('.')`, or 0 without a '.'. */
  function Precision(step: string): (r: nat)
    ensures '.' !in step ==> r == 0
    ensures r < |step| || r == 0
  {
    if '.' in step then |UpToDot(AfterDot(step))| else 0
  }

  lemma {:induction false} AfterDotOf(a: string, rest: string)
    requires '.' !in a
    ensures '.' in a + "." + rest
    ensures AfterDot(a + "." + rest) == rest
    decreases |a|
  {
    var s := a + "." + rest;
    assert s[|a|] == '.';
    if a == [] {
      assert s == "." + rest;
    } else {
      assert s[0] == a[0] && s[1..] == a[1..] + "." + rest;
      AfterDotOf(a[1..], rest);
    }
  }

  lemma {:induction false} UpToDotOf(b: string, rest: string)
    requires '.' !in b
    requires rest == [] || rest[0] == '.'
    ensures UpToDot(b + rest) == b
    decreases |b|
  {
    if b == [] {
      assert b + rest == rest;
    } else {
      assert (b + rest)[0] == b[0] && (b + rest)[1..] == b[1..] + rest;
      UpToDotOf(b[1..], rest);
    }
  }

  /** The precision of "a.b", or of "a.b.c…", is the length of `b`. */
  lemma PrecisionOfDecimal(a: string, b: string, rest: string)
    requires '.' !in a && '.' !in b
    requires rest == [] || rest[0] == '.'
    ensures Precision(a + "." + b + rest) == |b|
  {
    assert a + "." + b + rest == a + "." + (b + rest);
    AfterDotOf(a, b + rest);
    UpToDotOf(b, rest);
  }

  predicate IsDigit(c: char)
  {
    '0' <= c <= '9'
  }

  predicate AllDigits(s: string)
  {
    forall i :: 0 <= i < |s| ==> IsDigit(s[i])
  }

  function DigitChar(d: int): (c: char)
    requires 0 <= d < 10
    ensures IsDigit(c) && c as int - '0' as int == d
  {
    (d + '0' as int) as char
  }

  /** The decimal digits of `n`, most significant first, without leading zeros. */
  function Digits(n: nat): (s: string)
    ensures |s| >= 1 && AllDigits(s)
    decreases n
  {
    if n < 10 then [DigitChar(n)] else Digits(n / 10) + [DigitChar(n % 10)]
  }

  /** The number a run of decimal digits denotes. */
  function DigitsValue(s: string): nat
    requires AllDigits(s)
  {
    if s == [] then 0 else DigitsValue(s[..|s| - 1]) * 10 + (s[|s| - 1] as int - '0' as int)
  }

  lemma {:induction false} DigitsRoundTrip(n: nat)
    ensures DigitsValue(Digits(n)) == n
    decreases n
  {
    if n >= 10 {
      var s := Digits(n);
      assert s[..|s| - 1] == Digits(n / 10);
      DigitsRoundTrip(n / 10);
    }
  }

  /** A run of `k` zeros. */
  function Zeros(k: nat): (z: string)
    ensures |z| == k && AllDigits(z) && '.' !in z
    ensures DigitsValue(z) == 0
  {
    if k == 0 then "" else
      var z := Zeros(k - 1) + "0";
      assert z[..k - 1] == Zeros(k - 1);
      z
  }

  /** `s` with zeros in front, to at least `width` characters. */
  function ZeroPad(s: string, width: nat): (r: string)
    ensures |r| == if |s| < width then width else |s|
  {
    if |s| < width then Zeros(width - |s|) + s else s
  }

  /** Leading zeros keep a digit run a digit run and do not change its value. */
  lemma {:induction false} LeadingZerosValue(z: string, s: string)
    requires AllDigits(z) && DigitsValue(z) == 0 && AllDigits(s)
    ensures AllDigits(z + s)
    ensures DigitsValue(z + s) == DigitsValue(s)
    decreases |s|
  {
    var t := z + s;
    assert AllDigits(t) by {
      forall i | 0 <= i < |t| ensures IsDigit(t[i]) {
        if i < |z| { assert t[i] == z[i]; } else { assert t[i] == s[i - |z|]; }
      }
    }
    if s == [] {
      assert t == z;
    } else {
      assert t[..|t| - 1] == z + s[..|s| - 1];
      LeadingZerosValue(z, s[..|s| - 1]);
    }
  }

  lemma ZeroPadValue(s: string, width: nat)
    requires AllDigits(s)
    ensures AllDigits(ZeroPad(s, width)) && '.' !in ZeroPad(s, width)
    ensures DigitsValue(ZeroPad(s, width)) == DigitsValue(s)
  {
    if |s| < width {
      LeadingZerosValue(Zeros(width - |s|), s);
    }
    var r := ZeroPad(s, width);
    assert forall i :: 0 <= i < |r| ==> r[i] != '.';
  }

  /** The digits of `m`, padded to more than `p` characters so that the last
      `p` of them are the decimals and at least one is left in front. */
  function Padded(m: nat, p: nat): (r: string)
    ensures |r| > p && AllDigits(r) && '.' !in r
    ensures DigitsValue(r) == m
  {
    DigitsRoundTrip(m);
    ZeroPadValue(Digits(m), p + 1);
    ZeroPad(Digits(m), p + 1)
  }

  /** A sign, an integer part and, when there are decimals, a '.' and the decimals. */
  function Fixed(negative: bool, whole: string, frac: string): string
  {
    (if negative then "-" else "") + whole + (if frac == [] then "" else "." + frac)
  }

  /** Python's fixed-point rendering `f"{x:.{p}f}"` of the number
      ±m/10^p: the integer part, then for p > 0 a '.' and exactly p decimals. */
  function Render(negative: bool, m: nat, p: nat): string
  {
    Fixed(negative, WholePart(m, p), FracPart(m, p))
  }

  /** The integer part of the rendering of m/10^p: all but the last `p` padded digits. */
  function WholePart(m: nat, p: nat): (w: string)
    ensures |w| >= 1 && AllDigits(w)
  {
    var full := Padded(m, p);
    full[..|full| - p]
  }

  /** The decimals of the rendering of m/10^p: the last `p` padded digits. */
  function FracPart(m: nat, p: nat): (f: string)
    ensures |f| == p && AllDigits(f)
  {
    var full := Padded(m, p);
    full[|full| - p..]
  }

  /** 10^p as a real number. */
  function Scale(p: nat): (r: real)
    ensures r >= 1.0
  {
    if p == 0 then 1.0 else 10.0 * Scale(p - 1)
  }

  /** The exact number units·10^-places. */
  datatype Decimal = Decimal(units: int, places: nat)

  function DecimalReal(d: Decimal): real
  {
    d.units as real / Scale(d.places)
  }

  /** The number of 10^-|frac| steps the text whole.frac denotes: the digits
      with the '.' taken out. */
  function Units(whole: string, frac: string): nat
    requires AllDigits(whole) && AllDigits(frac)
  {
    AllDigitsConcat(whole, frac);
    DigitsValue(whole + frac)
  }

  /** The value of an unsigned decimal text "digits[.digits]", if it is one. */
  function UnsignedValue(body: string): Option<Decimal>
  {
    if '.' in body then
      var whole := UpToDot(body);
      var frac := AfterDot(body);
      if |whole| >= 1 && AllDigits(whole) && AllDigits(frac) then Some(Decimal(Units(whole, frac), |frac|))
      else None
    else if |body| >= 1 && AllDigits(body) then Some(Decimal(DigitsValue(body), 0))
    else None
  }

  /** The value a decimal text "[-]digits[.digits]" denotes, if it is one. */
  function DecimalValue(s: string): Option<Decimal>
  {
    var negative := |s| > 0 && s[0] == '-';
    var v := UnsignedValue(if negative then s[1..] else s);
    if v.None? then None
    else Some(Decimal(if negative then -v.value.units else v.value.units, v.value.places))
  }

  lemma AllDigitsConcat(a: string, b: string)
    requires AllDigits(a) && AllDigits(b)
    ensures AllDigits(a + b)
  {
    var t := a + b;
    forall i | 0 <= i < |t| ensures IsDigit(t[i]) {
      if i < |a| { assert t[i] == a[i]; } else { assert t[i] == b[i - |a|]; }
    }
  }

  lemma NoDotIn(s: string)
    requires AllDigits(s)
    ensures '.' !in s
  {
    assert forall i :: 0 <= i < |s| ==> s[i] != '.';
  }

  /** The body of a fixed-point text: the text after its sign. */
  lemma FixedBody(negative: bool, whole: string, frac: string)
    requires |whole| >= 1 && AllDigits(whole)
    ensures var s := Fixed(negative, whole, frac);
            (|s| > 0 && s[0] == '-') == negative &&
            (if negative then s[1..] else s) == whole + (if frac == [] then "" else "." + frac)
  {
    var rest := whole + (if frac == [] then "" else "." + frac);
    var s := Fixed(negative, whole, frac);
    if negative {
      assert s == "-" + rest;
    } else {
      assert s == rest;
      assert s[0] == whole[0];
    }
  }

  lemma UnsignedValueOf(whole: string, frac: string)
    requires |whole| >= 1 && AllDigits(whole) && AllDigits(frac)
    ensures UnsignedValue(whole + (if frac == [] then "" else "." + frac)) ==
            Some(Decimal(Units(whole, frac), |frac|))
  {
    NoDotIn(whole);
    var text := whole + (if frac == [] then "" else "." + frac);
    if frac == [] {
      assert text == whole == whole + frac;
      UnsignedWhole(whole);
    } else {
      assert text == whole + "." + frac;
      UnsignedWithDecimals(whole, frac);
    }
  }

  lemma UnsignedWhole(whole: string)
    requires |whole| >= 1 && AllDigits(whole) && '.' !in whole
    ensures UnsignedValue(whole) == Some(Decimal(DigitsValue(whole), 0))
  {
  }

  lemma UnsignedWithDecimals(whole: string, frac: string)
    requires |whole| >= 1 && AllDigits(whole) && AllDigits(frac) && '.' !in whole
    ensures UnsignedValue(whole + "." + frac) == Some(Decimal(Units(whole, frac), |frac|))
  {
    var body := whole + "." + frac;
    assert '.' in body && AfterDot(body) == frac by { AfterDotOf(whole, frac); }
    assert UpToDot(body) == whole by {
      assert body == whole + ("." + frac);
      UpToDotOf(whole, "." + frac);
    }
  }

  /** A fixed-point text has as many decimals as it was given. */
  lemma FixedPrecision(negative: bool, whole: string, frac: string)
    requires AllDigits(whole) && AllDigits(frac)
    ensures Precision(Fixed(negative, whole, frac)) == |frac|
  {
    NoDotIn(whole);
    NoDotIn(frac);
    var lead: string := if negative then "-" else "";
    assert '.' !in lead + whole by {
      forall i | 0 <= i < |lead + whole| ensures (lead + whole)[i] != '.' {
        if i >= |lead| { assert (lead + whole)[i] == whole[i - |lead|]; }
      }
    }
    var s := Fixed(negative, whole, frac);
    if frac == [] {
      assert s == lead + whole;
    } else {
      assert s == (lead + whole) + "." + frac + [];
      PrecisionOfDecimal(lead + whole, frac, []);
    }
  }

  /** A fixed-point text reads back as its sign and its digits without the '.',
      over 10^|frac|. */
  lemma FixedValue(negative: bool, whole: string, frac: string)
    requires |whole| >= 1 && AllDigits(whole) && AllDigits(frac)
    ensures DecimalValue(Fixed(negative, whole, frac)) ==
            Some(Decimal(if negative then -(Units(whole, frac) as int) else Units(whole, frac), |frac|))
  {
    FixedBody(negative, whole, frac);
    UnsignedValueOf(whole, frac);
    SignedValueOf(Fixed(negative, whole, frac), negative, whole + (if frac == [] then "" else "." + frac));
  }

  /** The value of a text whose sign and body are known. */
  lemma SignedValueOf(s: string, negative: bool, body: string)
    requires (|s| > 0 && s[0] == '-') == negative
    requires (if negative then s[1..] else s) == body
    requires UnsignedValue(body).Some?
    ensures DecimalValue(s) ==
            Some(Decimal(if negative then -UnsignedValue(body).value.units else UnsignedValue(body).value.units,
                         UnsignedValue(body).value.places))
  {
  }

  /** Rendering gives exactly `p` decimals. */
  lemma RenderPrecision(negative: bool, m: nat, p: nat)
    ensures Precision(Render(negative, m, p)) == p
  {
    FixedPrecision(negative, WholePart(m, p), FracPart(m, p));
  }

  /** A rendering reads back as ±m·10^-p. */
  lemma RenderValue(negative: bool, m: nat, p: nat)
    ensures DecimalValue(Render(negative, m, p)) == Some(Decimal(if negative then -(m as int) else m, p))
  {
    RenderUnits(m, p);
    FixedValue(negative, WholePart(m, p), FracPart(m, p));
  }

  /** The digits of a rendering, without its '.', are those of m. */
  lemma RenderUnits(m: nat, p: nat)
    ensures Units(WholePart(m, p), FracPart(m, p)) == m
  {
    var full := Padded(m, p);
    var w, f := WholePart(m, p), FracPart(m, p);
    assert w + f == full by { assert w == full[..|full| - p] && f == full[|full| - p..]; }
  }

  /** The number of 10^-p steps `quantity` rounds down to. */
  function FloorSteps(quantity: real, scale: real): int
  {
    (quantity * scale).Floor
  }

  /** The number of 10^-p steps `price` rounds to. */
  function NearestSteps(price: real, scale: real): int
  {
    RoundHalfEven(price * scale)
  }

  /** The rendering of k steps of 10^-p with the given sign. */
  function SignedRender(negative: bool, k: int, p: nat): string
  {
    Render(negative, if k < 0 then -k else k, p)
  }

  /** A signed number of 10^-p steps, rendered with a sign that agrees with it,
      reads back as that many steps. */
  lemma StepsValue(negative: bool, k: int, p: nat)
    requires negative ==> k <= 0
    requires !negative ==> k >= 0
    ensures DecimalValue(SignedRender(negative, k, p)) == Some(Decimal(k, p))
  {
    RenderValue(negative, if k < 0 then -k else k, p);
  }

  /** utils format_quantity: `quantity` rounded down to `precision` decimals. */
  function FormatQuantity(quantity: real, precision: nat): (r: string)
    ensures Precision(r) == precision
  {
    var k := FloorSteps(quantity, Scale(precision));
    RenderPrecision(k < 0, if k < 0 then -k else k, precision);
    SignedRender(k < 0, k, precision)
  }

  /** A formatted quantity reads back with `precision` decimals, never exceeds
      the quantity, and falls short of it by less than one unit of the last
      decimal. */
  lemma FormatQuantityRoundsDown(quantity: real, precision: nat)
    ensures var d := DecimalValue(FormatQuantity(quantity, precision));
            d.Some? && d.value.places == precision &&
            DecimalReal(d.value) <= quantity < DecimalReal(d.value) + 1.0 / Scale(precision)
  {
    var k := FloorSteps(quantity, Scale(precision));
    StepsValue(k < 0, k, precision);
    ReadBelow(DecimalValue(FormatQuantity(quantity, precision)), quantity, precision);
  }

  /** A reading of the quantity rounded down to 10^-p steps is at most the
      quantity and less than one step below it. */
  lemma ReadBelow(read: Option<Decimal>, quantity: real, p: nat)
    requires read == Some(Decimal(FloorSteps(quantity, Scale(p)), p))
    ensures read.Some? && read.value.places == p
    ensures DecimalReal(read.value) <= quantity < DecimalReal(read.value) + 1.0 / Scale(p)
  {
    FloorStepsBounds(quantity, Scale(p));
  }

  lemma FloorStepsBounds(quantity: real, P: real)
    requires P >= 1.0
    ensures var v := FloorSteps(quantity, P) as real / P;
            v <= quantity < v + 1.0 / P
  {
    FloorScaled(quantity, P, FloorSteps(quantity, P));
  }

  lemma FloorScaled(x: real, P: real, k: int)
    requires P >= 1.0 && k as real <= x * P < k as real + 1.0
    ensures k as real / P <= x < k as real / P + 1.0 / P
  {
    assert x == (x * P) / P;
    assert (k as real + 1.0) / P == k as real / P + 1.0 / P;
  }

  /** utils format_price: `price` rounded to nearest (ties to even) with
      `precision` decimals, the sign taken from the price. */
  function FormatPrice(price: real, precision: nat): (r: string)
    ensures Precision(r) == precision
  {
    var k := NearestSteps(price, Scale(precision));
    RenderPrecision(price < 0.0, if k < 0 then -k else k, precision);
    SignedRender(price < 0.0, k, precision)
  }

  /** A formatted price reads back with `precision` decimals and is within half
      a unit of the last decimal of the price. */
  lemma FormatPriceNearest(price: real, precision: nat)
    ensures var d := DecimalValue(FormatPrice(price, precision));
            d.Some? && d.value.places == precision &&
            Abs(DecimalReal(d.value) - price) <= 0.5 / Scale(precision)
  {
    FormatPriceValue(price, precision);
    ReadNear(DecimalValue(FormatPrice(price, precision)), price, precision);
  }

  lemma FormatPriceValue(price: real, precision: nat)
    ensures DecimalValue(FormatPrice(price, precision)) ==
            Some(Decimal(NearestSteps(price, Scale(precision)), precision))
  {
    NearestSign(price, Scale(precision));
    StepsValue(price < 0.0, NearestSteps(price, Scale(precision)), precision);
  }

  /** The rounded number of steps has the sign of the price (or is zero). */
  lemma NearestSign(price: real, P: real)
    requires P >= 1.0
    ensures price < 0.0 ==> NearestSteps(price, P) <= 0
    ensures price >= 0.0 ==> NearestSteps(price, P) >= 0
  {
    NearestClose(price, P);
    SignOfRounded(price, P, NearestSteps(price, P));
  }

  /** The rounded number of steps is within half a step of the price. */
  lemma NearestWithin(price: real, P: real)
    requires P >= 1.0
    ensures Abs(NearestSteps(price, P) as real / P - price) <= 0.5 / P
  {
    NearestClose(price, P);
    RoundedWithin(price, P, NearestSteps(price, P));
  }

  /** A reading of the price rounded to 10^-p steps is within half a step of it. */
  lemma ReadNear(read: Option<Decimal>, price: real, p: nat)
    requires read == Some(Decimal(NearestSteps(price, Scale(p)), p))
    ensures read.Some? && read.value.places == p
    ensures Abs(DecimalReal(read.value) - price) <= 0.5 / Scale(p)
  {
    NearestWithin(price, Scale(p));
  }

  lemma NearestClose(price: real, P: real)
    ensures Abs(price * P - NearestSteps(price, P) as real) <= 0.5
  {
  }

  /** Rounding x·P to within a half leaves x within half a 1/P step. */
  lemma RoundedWithin(x: real, P: real, k: int)
    requires P >= 1.0 && Abs(x * P - k as real) <= 0.5
    ensures Abs(k as real / P - x) <= 0.5 / P
  {
    var d := x * P - k as real;
    assert k as real / P - x == -(d / P) by {
      assert x == (x * P) / P;
    }
    if d >= 0.0 {
      assert (0.5 - d) / P >= 0.0;
      assert 0.5 / P - d / P == (0.5 - d) / P;
    } else {
      assert (0.5 + d) / P >= 0.0;
      assert 0.5 / P + d / P == (0.5 + d) / P;
    }
  }

  /** A scaled price rounds to a whole number of steps of the price's own sign
      (or to zero). */
  lemma SignOfRounded(price: real, P: real, k: int)
    requires P >= 1.0 && Abs(price * P - k as real) <= 0.5
    ensures price < 0.0 ==> k <= 0
    ensures price >= 0.0 ==> k >= 0
  {
    if price < 0.0 {
      assert price * P < 0.0;
    } else {
      MulNonneg(price, P);
    }
  }
}
