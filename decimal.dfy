/** Python's `float(str)`, `round(x, n)`, `f"{x:.2f}"` and `str(round(x, 1))` on
    exact rationals. `float()` accepts a decimal literal with optional surrounding
    whitespace and sign; rounding is to the nearest value, ties to even. */
module Decimal {
  import opened Wrappers
  import opened Text

  function Pow10(n: nat): (r: nat)
    ensures r >= 1
  {
    if n == 0 then 1 else 10 * Pow10(n - 1)
  }

  /** Every character is an ASCII digit. */
  predicate AllDigits(s: string) {
    s == [] || (IsDigit(s[0]) && AllDigits(s[1..]))
  }

  lemma {:induction false} AllDigitsAppend(a: string, b: string)
    ensures AllDigits(a + b) <==> AllDigits(a) && AllDigits(b)
  {
    if a == [] {
      assert a + b == b;
    } else {
      assert (a + b)[1..] == a[1..] + b;
      AllDigitsAppend(a[1..], b);
    }
  }

  lemma {:induction false} AllDigitsAt(s: string, i: nat)
    requires AllDigits(s) && i < |s|
    ensures IsDigit(s[i])
  {
    if i > 0 {
      AllDigitsAt(s[1..], i - 1);
    }
  }

  /** The value of one digit character. */
  function DigitVal(c: char): nat
  {
    if IsDigit(c) then c as int - '0' as int else 0
  }

  function DigitChar(d: nat): (c: char)
    requires d < 10
    ensures IsDigit(c) && DigitVal(c) == d
  {
    ('0' as int + d) as char
  }

  /** The value of a string of decimal digits, read left to right. */
  function DigitsValue(s: string): nat
  {
    if s == [] then 0 else DigitsValue(s[..|s| - 1]) * 10 + DigitVal(s[|s| - 1])
  }

  lemma {:induction false} DigitsValueSnoc(s: string, c: char)
    ensures DigitsValue(s + [c]) == DigitsValue(s) * 10 + DigitVal(c)
  {
    assert (s + [c])[..|s|] == s;
  }

  /** `str(n)` for a natural number: its decimal digits, without leading zeros. */
  function NatDigits(n: nat): (s: string)
    ensures |s| >= 1 && AllDigits(s) && DigitsValue(s) == n
  {
    if n < 10 then
      DigitsValueSnoc([], DigitChar(n));
      assert [DigitChar(n)][1..] == [];
      [DigitChar(n)]
    else
      var c := DigitChar(n % 10);
      DigitsValueSnoc(NatDigits(n / 10), c);
      AllDigitsAppend(NatDigits(n / 10), [c]);
      assert [c][1..] == [];
      NatDigits(n / 10) + [c]
  }

  /** `v / 10^k`, one digit position at a time. */
  function Shift(v: real, k: nat): real
  {
    if k == 0 then v else Shift(v, k - 1) / 10.0
  }

  lemma {:induction false} ShiftIsQuotient(v: real, k: nat)
    ensures Shift(v, k) == v / Pow10(k) as real
  {
    if k > 0 {
      ShiftIsQuotient(v, k - 1);
      assert Pow10(k) as real == 10.0 * Pow10(k - 1) as real;
    }
  }

  lemma {:induction false} ShiftNegate(v: real, k: nat)
    ensures Shift(-v, k) == -Shift(v, k)
  {
    if k > 0 {
      ShiftNegate(v, k - 1);
    }
  }

  /** An unsigned decimal literal: digits, optionally with one '.', at least one
      digit in all; its value is the digits read as one number, shifted right by
      the number of fraction digits. */
  function ParseUnsigned(t: string): Option<real>
  {
    var i := Find(t, '.');
    if i < |t| then
      var whole, frac := t[..i], t[i + 1..];
      if AllDigits(whole) && AllDigits(frac) && |whole| + |frac| > 0 then
        Some(Shift(DigitsValue(whole + frac) as real, |frac|))
      else None
    else if t != [] && AllDigits(t) then Some(DigitsValue(t) as real)
    else None
  }

  /** `float(s)` for a string: `None` stands for the ValueError Python raises. */
  function ParseDecimal(s: string): Option<real>
  {
    var t := Strip(s);
    if t != [] && (t[0] == '-' || t[0] == '+') then
      match ParseUnsigned(t[1..])
      case None => None
      case Some(v) => Some(if t[0] == '-' then -v else v)
    else ParseUnsigned(t)
  }

  /** The integer nearest to `y`, ties going to the even neighbour. */
  function RoundHalfEven(y: real): (n: int)
    ensures -0.5 <= n as real - y <= 0.5
  {
    var f := y.Floor;
    var d := y - f as real;
    if d < 0.5 then f
    else if d > 0.5 then f + 1
    else if f % 2 == 0 then f
    else f + 1
  }

  lemma {:induction false} RoundHalfEvenInt(n: int)
    ensures RoundHalfEven(n as real) == n
  {
  }

  /** `round(x, 1)` */
  function Round1(x: real): (r: real)
    ensures -0.05 <= r - x <= 0.05
  {
    RoundHalfEven(x * 10.0) as real / 10.0
  }

  /** `round(x, 2)`, the value `f"{x:.2f}"` prints. */
  function Round2(x: real): (r: real)
    ensures -0.005 <= r - x <= 0.005
  {
    RoundHalfEven(x * 100.0) as real / 100.0
  }

  /** `f"{x:.2f}"` */
  function Money(x: real): string
  {
    FixedPoint(RoundHalfEven(x * 100.0), 2)
  }

  /** `str(round(x, 1))`: Python prints a one-decimal float with exactly one
      fraction digit. */
  function Tenths(x: real): string
  {
    FixedPoint(RoundHalfEven(x * 10.0), 1)
  }

  /** The money field a receipt carries when nothing was extracted. */
  const Zero: string := "0.00"

  lemma {:induction false} ZeroIsMoney()
    ensures Money(0.0) == Zero
  {
    assert RoundHalfEven(0.0 * 100.0) == 0;
    assert NatDigits(0) == "0";
    assert UnsignedFixed(0, 1) == "0.0";
    assert UnsignedFixed(0, 2) == "0.00";
  }

  /** The first '.' after a run of digits is the one that ends it. */
  lemma {:induction false} FindPastDigits(a: string, b: string)
    requires AllDigits(a)
    ensures Find(a + "." + b, '.') == |a|
  {
    if a != [] {
      assert (a + "." + b)[1..] == a[1..] + "." + b;
      FindPastDigits(a[1..], b);
    } else {
      assert a + "." + b == "." + b;
    }
  }

  lemma {:induction false} ParseUnsignedPoint(whole: string, frac: string)
    requires AllDigits(whole) && AllDigits(frac) && |whole| >= 1
    ensures AllDigits(whole + frac)
    ensures ParseUnsigned(whole + "." + frac) == Some(Shift(DigitsValue(whole + frac) as real, |frac|))
  {
    var t := whole + "." + frac;
    AllDigitsAppend(whole, frac);
    FindPastDigits(whole, frac);
    assert t[..|whole|] == whole;
    assert t[|whole| + 1..] == frac;
  }

  /** The unsigned text of `m / 10^places`: the digits of `m` with a '.'
      inserted `places` digits from the right, zero-padded so that at least one
      digit stands before the '.'. */
  function UnsignedFixed(m: nat, places: nat): (s: string)
    ensures |s| >= places + 2 && IsDigit(s[0])
    ensures places >= 1 ==> IsDigit(s[|s| - 1])
  {
    if places == 0 then
      var w := NatDigits(m);
      AllDigitsAt(w, 0);
      w + "."
    else
      UnsignedFixed(m / 10, places - 1) + [DigitChar(m % 10)]
  }

  /** The text `UnsignedFixed` prints is integer digits, '.', and `places`
      fraction digits that together spell `m`. */
  lemma {:induction false} UnsignedFixedShape(m: nat, places: nat) returns (whole: string, frac: string)
    ensures UnsignedFixed(m, places) == whole + "." + frac
    ensures |whole| >= 1 && AllDigits(whole) && AllDigits(frac) && |frac| == places
    ensures DigitsValue(whole + frac) == m
  {
    if places == 0 {
      whole, frac := NatDigits(m), [];
      assert whole + frac == whole;
    } else {
      var w, f := UnsignedFixedShape(m / 10, places - 1);
      var c := DigitChar(m % 10);
      whole, frac := w, f + [c];
      assert whole + "." + frac == (w + "." + f) + [c];
      AllDigitsAppend(f, [c]);
      assert [c][1..] == [];
      assert whole + frac == (w + f) + [c];
      DigitsValueSnoc(w + f, c);
    }
  }

  /** The fixed-point text of `n / 10^places`: sign, integer digits, '.', and
      exactly `places` fraction digits. */
  function FixedPoint(n: int, places: nat): string
    requires places >= 1
  {
    (if n < 0 then "-" else "") + UnsignedFixed(Abs(n), places)
  }

  function Abs(n: int): nat {
    if n < 0 then -n else n
  }

  lemma {:induction false} ParseUnsignedFixed(m: nat, places: nat)
    ensures ParseUnsigned(UnsignedFixed(m, places)) == Some(Shift(m as real, places))
  {
    var whole, frac := UnsignedFixedShape(m, places);
    ParseUnsignedPoint(whole, frac);
  }

  /** A digit-bounded unsigned literal, with or without a leading '-', parses
      to its value, negated when the sign is there. */
  lemma {:induction false} ParseSigned(s: string, neg: bool, body: string, v: real)
    requires s == (if neg then "-" else "") + body
    requires |body| >= 1 && IsDigit(body[0]) && IsDigit(body[|body| - 1])
    requires ParseUnsigned(body) == Some(v)
    ensures ParseDecimal(s) == Some(if neg then -v else v)
  {
    assert s[|s| - 1] == body[|body| - 1];
    assert Strip(s) == s by {
      assert Trimmed(s);
    }
    if neg {
      assert s[1..] == body;
      ParseMinus(s, body);
    } else {
      assert s == body;
      ParsePlain(s);
    }
  }

  /** `float` of a stripped literal that starts with '-'. */
  lemma {:induction false} ParseMinus(t: string, body: string)
    requires Strip(t) == t && t != [] && t[0] == '-' && t[1..] == body
    ensures ParseDecimal(t) == match ParseUnsigned(body) case None => None case Some(v) => Some(-v)
  {
  }

  /** `float` of a stripped literal that starts with a digit. */
  lemma {:induction false} ParsePlain(t: string)
    requires Strip(t) == t && t != [] && IsDigit(t[0])
    ensures ParseDecimal(t) == ParseUnsigned(t)
  {
  }

  /** Printing a fixed-point number and parsing it back gives its value: `s` is
      the text printed for `n / 10^places`. */
  lemma {:induction false} ParseFixedPoint(s: string, n: int, places: nat)
    requires places >= 1 && s == FixedPoint(n, places)
    ensures ParseDecimal(s) == Some(Shift(n as real, places))
  {
    var m := Abs(n);
    var body := UnsignedFixed(m, places);
    var v := Shift(m as real, places);
    ParseUnsignedFixed(m, places);
    ParseSigned(s, n < 0, body, v);
    if n < 0 {
      assert ParseDecimal(s) == Some(-v);
      NegatedShift(n, m, places);
    } else {
      assert ParseDecimal(s) == Some(v);
      assert n as real == m as real;
    }
  }

  lemma {:induction false} NegatedShift(n: int, m: nat, places: nat)
    requires n < 0 && m == Abs(n)
    ensures Shift(n as real, places) == -Shift(m as real, places)
  {
    assert n as real == -(m as real);
    ShiftNegate(m as real, places);
  }

  /** `float(f"{x:.2f}")` is `round(x, 2)`. */
  lemma {:induction false} ParseMoney(x: real)
    ensures ParseDecimal(Money(x)) == Some(Round2(x))
  {
    var n := RoundHalfEven(x * 100.0);
    ParseFixedPoint(Money(x), n, 2);
    assert Shift(n as real, 2) == Shift(n as real, 1) / 10.0;
    assert Shift(n as real, 1) == n as real / 10.0;
    assert Shift(n as real, 2) == Round2(x);
  }

  /** `float(str(round(x, 1)))` is `round(x, 1)`. */
  lemma {:induction false} ParseTenths(x: real)
    ensures ParseDecimal(Tenths(x)) == Some(Round1(x))
  {
    var n := RoundHalfEven(x * 10.0);
    ParseFixedPoint(Tenths(x), n, 1);
    assert Shift(n as real, 1) == Shift(n as real, 0) / 10.0;
    assert Shift(n as real, 0) == n as real;
    assert Shift(n as real, 1) == Round1(x);
  }

  /** Reformatting a formatted amount changes nothing: `f"{float(f'{x:.2f}'):.2f}"`
      is `f"{x:.2f}"`. */
  lemma {:induction false} MoneyStable(x: real)
    ensures Money(Round2(x)) == Money(x)
  {
    var n := RoundHalfEven(x * 100.0);
    assert Round2(x) * 100.0 == n as real;
    RoundHalfEvenInt(n);
  }

  lemma {:induction false} Round1Stable(x: real)
    ensures Round1(Round1(x)) == Round1(x)
    ensures Tenths(Round1(x)) == Tenths(x)
  {
    var n := RoundHalfEven(x * 10.0);
    assert Round1(x) * 10.0 == n as real;
    RoundHalfEvenInt(n);
  }
}
