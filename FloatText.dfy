/**
 * `std::to_string` of a floating-point value, which prints it as `%f` does:
 * an optional minus sign, the integer part in decimal, a point and exactly
 * six decimal digits, the value being rounded to the nearest millionth with
 * ties going to the even neighbour. Values are exact reals here; the binary
 * representation they come from is not part of this model.
 */
module FloatText {

  const Million: nat := 1000000

  predicate IsDigit(ch: char)
  {
    '0' <= ch <= '9'
  }

  predicate AllDigits(s: string)
  {
    forall i :: 0 <= i < |s| ==> IsDigit(s[i])
  }

  function DigitChar(d: nat): (ch: char)
    requires d < 10
    ensures IsDigit(ch) && ch as int - '0' as int == d
  {
    ('0' as int + d) as char
  }

  function Pow10(k: nat): nat
  {
    if k == 0 then 1 else 10 * Pow10(k - 1)
  }

  /** The number a string of decimal digits denotes, most significant first. */
  function Value(s: string): nat
    requires AllDigits(s)
  {
    if s == [] then 0
    else Value(s[..|s| - 1]) * 10 + (s[|s| - 1] as int - '0' as int)
  }

  /** The lowest `width` decimal digits of `n`, padded with leading zeros. */
  function Digits(n: nat, width: nat): (s: string)
    ensures |s| == width && AllDigits(s)
  {
    if width == 0 then ""
    else Digits(n / 10, width - 1) + [DigitChar(n % 10)]
  }

  /** `n` in decimal, without leading zeros. */
  function Decimal(n: nat): (s: string)
    ensures s != [] && AllDigits(s)
  {
    if n < 10 then [DigitChar(n)]
    else Decimal(n / 10) + [DigitChar(n % 10)]
  }

  /** The padded digits of a number that fits the width read back as that number. */
  lemma {:induction false} DigitsValue(n: nat, width: nat)
    requires n < Pow10(width)
    ensures Value(Digits(n, width)) == n
  {
    if width > 0 {
      var s := Digits(n, width);
      assert s[..|s| - 1] == Digits(n / 10, width - 1);
      DigitsValue(n / 10, width - 1);
    }
  }

  lemma {:induction false} DecimalValue(n: nat)
    ensures Value(Decimal(n)) == n
  {
    if n >= 10 {
      var s := Decimal(n);
      assert s[..|s| - 1] == Decimal(n / 10);
      DecimalValue(n / 10);
    }
  }

  lemma {:induction false} DecimalLength(n: nat)
    ensures n < 10 <==> |Decimal(n)| == 1
  {
    if n >= 10 {
      var _ := Decimal(n / 10);
    }
  }

  /**
   * `x` as a whole number of millionths: the nearest one, and of two equally
   * near the even one.
   */
  function Millionths(x: real): (m: int)
    ensures m as real - 0.5 <= x * 1000000.0 <= m as real + 0.5
    ensures x >= 0.0 ==> m >= 0
  {
    var scaled := x * 1000000.0;
    var below := scaled.Floor;
    var excess := scaled - below as real;
    if excess < 0.5 then below
    else if excess > 0.5 then below + 1
    else if below % 2 == 0 then below
    else below + 1
  }

  function Abs(r: real): real
  {
    if r < 0.0 then -r else r
  }

  /** No whole number of millionths is nearer to `x` than `Millionths(x)`. */
  lemma MillionthsIsNearest(x: real, k: int)
    ensures Abs(x * 1000000.0 - Millionths(x) as real) <= Abs(x * 1000000.0 - k as real)
  {
    var m := Millionths(x);
    if k < m {
      assert k as real <= m as real - 1.0;
    } else if k > m {
      assert k as real >= m as real + 1.0;
    }
  }

  /** A tie between two millionths goes to the even one. */
  lemma MillionthsTiesToEven(x: real)
    requires x * 1000000.0 - (x * 1000000.0).Floor as real == 0.5
    ensures Millionths(x) % 2 == 0
  {
  }

  /** `%f` of a value that is not negative. */
  function Unsigned(x: real): (s: string)
    requires x >= 0.0
  {
    var m := Millionths(x);
    Decimal(m / Million) + "." + Digits(m % Million, 6)
  }

  /**
   * `std::to_string(x)`: a minus sign exactly for a negative value, and a
   * point followed by six decimals at the end.
   */
  function ToString(x: real): (s: string)
    ensures |s| >= 8 && s[|s| - 7] == '.'
    ensures s[0] == '-' <==> x < 0.0
  {
    if x < 0.0 then "-" + Unsigned(-x) else Unsigned(x)
  }

  /**
   * What `Unsigned` prints is digits, a point seven places from the end, and
   * six more digits, and it reads back as the rounded value.
   */
  lemma UnsignedReadsBack(x: real)
    requires x >= 0.0
    ensures var s := Unsigned(x);
            |s| >= 8 && s[|s| - 7] == '.'
            && AllDigits(s[..|s| - 7]) && AllDigits(s[|s| - 6..])
            && Value(s[..|s| - 7]) * Million + Value(s[|s| - 6..]) == Millionths(x)
  {
    var m := Millionths(x);
    var whole, frac := Decimal(m / Million), Digits(m % Million, 6);
    var s := Unsigned(x);
    assert s == whole + "." + frac;
    assert s[..|s| - 7] == whole;
    assert s[|s| - 6..] == frac;
    DecimalValue(m / Million);
    assert Pow10(6) == Million;
    DigitsValue(m % Million, 6);
  }

  /** A value of the open unit interval prints as `d.dddddd`, eight characters. */
  lemma UnitIntervalWidth(x: real)
    requires 0.0 < x < 1.0
    ensures |ToString(x)| == 8
  {
    var m := Millionths(x);
    assert m <= Million;
    DecimalLength(m / Million);
  }

  /** `to_string` prints only a minus sign, digits and a point. */
  lemma ToStringCharacters(x: real)
    ensures forall ch <- ToString(x) :: ch == '-' || ch == '.' || IsDigit(ch)
  {
    var y := if x < 0.0 then -x else x;
    var m := Millionths(y);
    var whole, frac := Decimal(m / Million), Digits(m % Million, 6);
    assert Unsigned(y) == whole + "." + frac;
    forall ch <- ToString(x) ensures ch == '-' || ch == '.' || IsDigit(ch) {
      if ch !in "-." {
        assert ch in whole || ch in frac;
      }
    }
  }
}
