/** Decimal text and decimal rounding, over the reals. */
module Numerals {
  import opened Sums

  function Pow10(k: nat): (p: nat)
    ensures p >= 1
  {
    if k == 0 then 1 else 10 * Pow10(k - 1)
  }

  function DigitChar(d: nat): (c: char)
    requires d < 10
    ensures '0' <= c <= '9'
  {
    '0' + d as char
  }

  /** `str(n)` for n >= 0. */
  function Decimal(n: nat): (s: string)
    ensures |s| >= 1
    ensures forall c :: c in s ==> '0' <= c <= '9'
  {
    if n < 10 then [DigitChar(n)] else Decimal(n / 10) + [DigitChar(n % 10)]
  }

  /** The last `width` digits of n, zero padded. */
  function Padded(n: nat, width: nat): (s: string)
    ensures |s| == width
    ensures forall c :: c in s ==> '0' <= c <= '9'
  {
    if width == 0 then "" else Padded(n / 10, width - 1) + [DigitChar(n % 10)]
  }

  /** A decimal text has k digits exactly when its number lies in the k-digit range. */
  lemma {:induction false} DecimalLength(n: nat, k: nat)
    requires k >= 1
    ensures |Decimal(n)| <= k <==> n < Pow10(k)
  {
    if n < 10 {
      assert Pow10(k) == 10 * Pow10(k - 1);
    } else if k == 1 {
      assert Pow10(1) == 10 * Pow10(0);
    } else {
      DecimalLength(n / 10, k - 1);
    }
  }

  /** Round to the nearest integer, ties to even. */
  function Nearest(x: real): (r: int)
    ensures -0.5 <= x - r as real <= 0.5
  {
    var f := x.Floor;
    var d := x - f as real;
    if d < 0.5 || (d == 0.5 && f % 2 == 0) then f else f + 1
  }

  lemma NearestMonotone(x: real, y: real)
    requires x <= y
    ensures Nearest(x) <= Nearest(y)
  {
    if x.Floor == y.Floor {
    } else {
      assert x.Floor + 1 <= y.Floor;
    }
  }

  lemma NearestOfInteger(n: int)
    ensures Nearest(n as real) == n
  {
  }

  function Scale(places: nat): (p: real)
    ensures p >= 1.0
  {
    Pow10(places) as real
  }

  /** A quotient under a name, as Times is for products. */
  function Over(a: real, p: real): real
    requires p > 0.0
  {
    a / p
  }

  /** x to the nearest multiple of 1/p. */
  function ToGrid(x: real, p: real): (r: real)
    requires p > 0.0
  {
    Over(Nearest(Times(x, p)) as real, p)
  }

  /** `round(x, places)`. */
  function Round(x: real, places: nat): (r: real) {
    ToGrid(x, Scale(places))
  }

  lemma GridMonotone(x: real, y: real, p: real)
    requires x <= y && p > 0.0
    ensures ToGrid(x, p) <= ToGrid(y, p)
  {
    var a, b := Times(x, p), Times(y, p);
    TimesMonotone(x, y, p);
    NearestMonotone(a, b);
    OverMonotone(Nearest(a) as real, Nearest(b) as real, p);
  }

  lemma TimesMonotone(a: real, b: real, p: real)
    requires a <= b && p > 0.0
    ensures Times(a, p) <= Times(b, p)
  {
  }

  lemma OverMonotone(a: real, b: real, p: real)
    requires a <= b && p > 0.0
    ensures Over(a, p) <= Over(b, p)
  {
  }

  lemma RoundMonotone(x: real, y: real, places: nat)
    requires x <= y
    ensures Round(x, places) <= Round(y, places)
  {
    GridMonotone(x, y, Scale(places));
  }

  lemma GridOfInteger(n: int, p: int)
    requires p > 0
    ensures ToGrid(n as real, p as real) == n as real
  {
    ProductAsReal(n, p);
    NearestOfInteger(n * p);
    CancelFactor(n as real, p as real);
  }

  lemma ProductAsReal(n: int, p: int)
    ensures Times(n as real, p as real) == (n * p) as real
  {
  }

  lemma CancelFactor(x: real, p: real)
    requires p > 0.0
    ensures Over(Times(x, p), p) == x
  {
  }

  lemma RoundOfInteger(n: int, places: nat)
    ensures Round(n as real, places) == n as real
  {
    GridOfInteger(n, Pow10(places));
  }

  /** A finite double as its real value, and the three special values. */
  datatype Float = Finite(value: real) | PosInf | NegInf | NaN

  function Abs(x: real): real { if x < 0.0 then -x else x }

  /** n without its last k digits. */
  function DropDigits(n: nat, k: nat): nat {
    if k == 0 then n else DropDigits(n / 10, k - 1)
  }

  /** |v| in units of the last place, rounded. */
  function Magnitude(v: real, places: nat): nat {
    var q := Nearest(Times(Abs(v), Scale(places)));
    if q < 0 then 0 else q
  }

  /** The f-string rendering `{x:.{places}f}`. */
  function Fixed(x: Float, places: nat): string {
    match x
    case NaN => "nan"
    case PosInf => "inf"
    case NegInf => "-inf"
    case Finite(v) =>
      var n := Magnitude(v, places);
      (if v < 0.0 then "-" else "") + Decimal(DropDigits(n, places))
      + (if places == 0 then "" else "." + Padded(n, places))
  }

  /** A fixed-point rendering has at most one dot. */
  lemma FixedHasOneDot(x: Float, places: nat) returns (a: string, b: string, dotted: bool)
    ensures '.' !in a && '.' !in b
    ensures Fixed(x, places) == if dotted then a + "." + b else a
  {
    match x
    case NaN => a, b, dotted := "nan", "", false;
    case PosInf => a, b, dotted := "inf", "", false;
    case NegInf => a, b, dotted := "-inf", "", false;
    case Finite(v) =>
      var n := Magnitude(v, places);
      a := (if v < 0.0 then "-" else "") + Decimal(DropDigits(n, places));
      b := Padded(n, places);
      dotted := places > 0;
  }

  // ----- Reading back -----

  predicate AllDigits(s: string) { forall i :: 0 <= i < |s| ==> '0' <= s[i] <= '9' }

  /** The number a digit text writes. */
  function Value(s: string): nat
    requires AllDigits(s)
  {
    if s == "" then 0 else 10 * Value(s[..|s| - 1]) + (s[|s| - 1] - '0') as nat
  }

  lemma {:induction false} DecimalReadsBack(n: nat)
    ensures AllDigits(Decimal(n)) && Value(Decimal(n)) == n && (n > 0 ==> Decimal(n)[0] != '0')
  {
    var s := Decimal(n);
    if n < 10 {
      assert s[..0] == "";
    } else {
      DecimalReadsBack(n / 10);
      assert s[..|s| - 1] == Decimal(n / 10);
    }
  }

  lemma {:induction false} DropAndPad(n: nat, k: nat)
    ensures AllDigits(Padded(n, k)) && DropDigits(n, k) * Pow10(k) + Value(Padded(n, k)) == n
    ensures Value(Padded(n, k)) < Pow10(k)
  {
    if k > 0 {
      DropAndPad(n / 10, k - 1);
      var s := Padded(n, k);
      assert s[..|s| - 1] == Padded(n / 10, k - 1);
      TenTimes(DropDigits(n / 10, k - 1), Pow10(k - 1));
    }
  }

  lemma TenTimes(a: nat, p: nat)
    ensures a * (10 * p) == 10 * (a * p)
  {
  }

  /** The nearest integer is within a half, and even when two are equally near. */
  lemma NearestIsNearest(x: real)
    ensures -0.5 <= x - Nearest(x) as real <= 0.5
    ensures x - Nearest(x) as real == 0.5 || x - Nearest(x) as real == -0.5 ==> Nearest(x) % 2 == 0
  {
  }

  /** round(x, places) is a whole number of units in the last place, the nearest one to x, even on a tie. */
  lemma RoundIsNearest(x: real, places: nat) returns (n: int)
    ensures Round(x, places) == Over(n as real, Pow10(places) as real)
    ensures var d := Times(x, Pow10(places) as real) - n as real;
      -0.5 <= d <= 0.5 && (d == 0.5 || d == -0.5 ==> n % 2 == 0)
  {
    n := Nearest(Times(x, Scale(places)));
    NearestIsNearest(Times(x, Scale(places)));
  }

  lemma MagnitudeIsNearest(v: real, places: nat)
    ensures var d := Times(Abs(v), Scale(places)) - Magnitude(v, places) as real;
      -0.5 <= d <= 0.5 && (d == 0.5 || d == -0.5 ==> Magnitude(v, places) % 2 == 0)
  {
    NearestIsNearest(Times(Abs(v), Scale(places)));
    AbsScaled(v, Scale(places));
  }

  lemma AbsScaled(v: real, p: real)
    requires p > 0.0
    ensures Times(Abs(v), p) >= 0.0
  {
  }

  /** A fixed-point text is a sign, a whole part without leading zeros and, after a dot, as many digits as places;
      read together the digits are the nearest whole number of units in the last place, even on a tie. */
  lemma FixedReadsBack(v: real, places: nat) returns (n: nat, whole: string, fraction: string)
    ensures Fixed(Finite(v), places)
         == (if v < 0.0 then "-" else "") + whole + (if places == 0 then "" else "." + fraction)
    ensures AllDigits(whole) && AllDigits(fraction) && |fraction| == places
    ensures Value(whole) * Pow10(places) + Value(fraction) == n
    ensures Value(whole) > 0 ==> whole != "" && whole[0] != '0'
    ensures var d := Times(Abs(v), Scale(places)) - n as real;
      -0.5 <= d <= 0.5 && (d == 0.5 || d == -0.5 ==> n % 2 == 0)
  {
    n := Magnitude(v, places);
    whole, fraction := Decimal(DropDigits(n, places)), Padded(n, places);
    DecimalReadsBack(DropDigits(n, places));
    DropAndPad(n, places);
    MagnitudeIsNearest(v, places);
  }
}
