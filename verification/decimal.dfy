/**
 * The two `printf` conversions the trace writer uses for times: `%ld` and `%03ld`,
 * applied to the quotient and remainder of a nanosecond count divided by 1000
 * with C's truncating `/` and `%`. The result is a microsecond count with three
 * decimals, the unit of the Chrome trace format.
 */
module Decimal {
  import opened Basics

  /** C's `n / 1000`: the quotient truncates toward zero. */
  function Quot(n: int): (q: int)
    ensures 0 <= n ==> 0 <= n - 1000 * q < 1000
    ensures n < 0 ==> -1000 < n - 1000 * q <= 0
  {
    if n >= 0 then n / 1000 else -((-n) / 1000)
  }

  /** C's `n % 1000`: the remainder takes the sign of `n`. */
  function Rem(n: int): (r: int)
    ensures n == 1000 * Quot(n) + r
    ensures 0 <= n ==> 0 <= r < 1000
    ensures n < 0 ==> -1000 < r <= 0
  {
    n - 1000 * Quot(n)
  }

  predicate IsDigit(c: char)
  {
    '0' <= c <= '9'
  }

  predicate AllDigits(s: string)
  {
    forall i :: 0 <= i < |s| ==> IsDigit(s[i])
  }

  function DigitChar(d: nat): (c: char)
    requires d < 10
    ensures IsDigit(c) && (c as int - 48) == d
  {
    (48 + d) as char
  }

  function DigitValue(c: char): (d: nat)
    requires IsDigit(c)
    ensures d < 10
    ensures DigitChar(d) == c
  {
    (c as int - 48) as nat
  }

  /** The decimal digits of `n`, without leading zeros ("0" for zero). */
  function Digits(n: nat): (s: string)
    ensures 1 <= |s|
    ensures AllDigits(s)
    ensures 1 < |s| ==> s[0] != '0'
    ensures n < 10 <==> |s| == 1
  {
    if n < 10 then [DigitChar(n)] else Digits(n / 10) + [DigitChar(n % 10)]
  }

  /** The number a digit string denotes. */
  function Value(s: string): nat
    requires AllDigits(s)
  {
    if s == [] then 0 else 10 * Value(s[..|s| - 1]) + DigitValue(s[|s| - 1])
  }

  lemma {:induction false} ValueOfDigits(n: nat)
    ensures Value(Digits(n)) == n
  {
    if n >= 10 {
      var s := Digits(n);
      assert s[..|s| - 1] == Digits(n / 10);
      ValueOfDigits(n / 10);
    }
  }

  /** `%ld`: an optional minus sign, then the digits of the magnitude. */
  function Long(n: int): (s: string)
    ensures 0 <= n ==> s == Digits(n)
    ensures n < 0 ==> 1 < |s| && s[0] == '-' && s[1..] == Digits(-n)
  {
    if n < 0 then "-" + Digits(-n) else Digits(n)
  }

  function Zeros(k: int): (s: string)
    ensures |s| == if k < 0 then 0 else k
    ensures forall i :: 0 <= i < |s| ==> s[i] == '0'
  {
    if k <= 0 then "" else "0" + Zeros(k - 1)
  }

  /** `%03ld`: as `%ld`, with zeros inserted after the sign up to a width of three. */
  function Padded3(n: int): (s: string)
    ensures 3 <= |s|
  {
    var sign := if n < 0 then "-" else "";
    var body := Digits(if n < 0 then -n else n);
    sign + Zeros(3 - |sign| - |body|) + body
  }

  lemma {:induction false} ValueOfZeros(k: int)
    ensures AllDigits(Zeros(k)) && Value(Zeros(k)) == 0
  {
    if k > 0 {
      var z := Zeros(k);
      assert z[..|z| - 1] == Zeros(k - 1);
      ValueOfZeros(k - 1);
    }
  }

  /** Leading zeros do not change the number a digit string denotes. */
  lemma {:induction false} ValueLeadingZeros(k: int, t: string)
    requires AllDigits(t)
    ensures AllDigits(Zeros(k) + t) && Value(Zeros(k) + t) == Value(t)
  {
    var s := Zeros(k) + t;
    if t == [] {
      assert s == Zeros(k);
      ValueOfZeros(k);
    } else {
      var init := t[..|t| - 1];
      assert s[..|s| - 1] == Zeros(k) + init;
      ValueLeadingZeros(k, init);
    }
  }

  /**
   * `%03ld` reads back: a sign exactly for negative values, then digits that
   * denote the magnitude, and the width is that of `%ld` raised to three.
   */
  lemma Padded3Reads(n: int)
    ensures var s := Padded3(n);
      && (s[0] == '-' <==> n < 0)
      && (0 <= n ==> AllDigits(s) && Value(s) == n)
      && (n < 0 ==> AllDigits(s[1..]) && Value(s[1..]) == -n)
      && |s| == if |Long(n)| < 3 then 3 else |Long(n)|
  {
    var m := if n < 0 then -n else n;
    var sign := if n < 0 then "-" else "";
    var body := Digits(m);
    assert Padded3(n) == sign + Zeros(3 - |sign| - |body|) + body;
    assert |Long(n)| == |sign| + |body|;
    ValueOfDigits(m);
    SignedPadding(sign, 3 - |sign| - |body|, body);
  }

  /** A sign, `k` zeros and a digit string, as `%03ld` lays them out. */
  lemma SignedPadding(sign: string, k: int, body: string)
    requires sign == "" || sign == "-"
    requires AllDigits(body) && body != []
    ensures var s := sign + Zeros(k) + body;
      && |s| == |sign| + (if k < 0 then 0 else k) + |body|
      && (s[0] == '-' <==> sign == "-")
      && (sign == "" ==> AllDigits(s) && Value(s) == Value(body))
      && (sign == "-" ==> AllDigits(s[1..]) && Value(s[1..]) == Value(body))
  {
    var s := sign + Zeros(k) + body;
    ValueLeadingZeros(k, body);
    if sign == "-" {
      assert s[1..] == Zeros(k) + body;
    } else {
      assert s == Zeros(k) + body;
      assert IsDigit(s[0]);
    }
  }

  /** A negative remainder: the sign, one zero when a single digit follows, then the digits. */
  lemma NegativeRemainder(r: int)
    requires -999 <= r < 0
    ensures Padded3(r) == "-" + (if -r < 10 then "0" else "") + Digits(-r)
  {
    if -r >= 10 {
      assert Zeros(3 - 1 - |Digits(-r)|) == "";
    }
  }

  /** `"%ld.%03ld", n / 1000, n % 1000`. */
  function Fixed(n: int): string
  {
    Long(Quot(n)) + "." + Padded3(Rem(n))
  }

  /** A value below 1000 is rendered by `%03ld` as exactly its three decimal digits. */
  lemma ThreeDigits(r: int)
    requires 0 <= r < 1000
    ensures Padded3(r) == [DigitChar(r / 100), DigitChar(r / 10 % 10), DigitChar(r % 10)]
  {
    if r < 10 {
      assert Digits(r) == [DigitChar(r)];
    } else if r < 100 {
      assert Digits(r / 10) == [DigitChar(r / 10)];
    } else {
      assert Digits(r / 100) == [DigitChar(r / 100)];
      assert Digits(r / 10) == [DigitChar(r / 100)] + [DigitChar(r / 10 % 10)];
    }
  }

  /**
   * A reader for the non-negative renderings: the integer digits, a dot and exactly
   * three fraction digits.
   */
  function ParseFixed(s: string): Option<int>
  {
    if 5 <= |s| && s[|s| - 4] == '.' && AllDigits(s[..|s| - 4]) && AllDigits(s[|s| - 3..]) then
      Some(1000 * Value(s[..|s| - 4]) + Value(s[|s| - 3..]))
    else
      None
  }

  /** For a non-negative count, the rendering is the whole part, a dot and three digits. */
  lemma FixedShape(n: int)
    requires 0 <= n
    ensures Fixed(n) == Digits(n / 1000) + "." + Padded3(n % 1000)
    ensures |Padded3(n % 1000)| == 3 && AllDigits(Padded3(n % 1000))
    ensures Value(Padded3(n % 1000)) == n % 1000
  {
    var r := n % 1000;
    assert Quot(n) == n / 1000 && Rem(n) == r;
    assert |Padded3(r)| == 3 by {
      ThreeDigits(r);
    }
    Padded3Reads(r);
  }

  /** Reading a non-negative rendering back gives the nanosecond count. */
  lemma {:induction false} FixedRoundTrip(n: int)
    requires 0 <= n
    ensures ParseFixed(Fixed(n)) == Some(n)
  {
    FixedShape(n);
    var whole := Digits(n / 1000);
    var frac := Padded3(n % 1000);
    var s := Fixed(n);
    assert s == whole + "." + frac;
    assert s[..|s| - 4] == whole;
    assert s[|s| - 3..] == frac;
    ValueOfDigits(n / 1000);
  }

  lemma FixedExamples()
    ensures Fixed(5) == "0.005"
    ensures Fixed(1234567) == "1234.567"
  {
    ThreeDigits(5);
    ThreeDigits(567);
    assert Digits(1234) == Digits(123) + ['4'];
    assert Digits(123) == Digits(12) + ['3'];
    assert Digits(12) == Digits(1) + ['2'];
  }

  /**
   * A negative count (a record before the epoch, or an end before its start) is
   * rendered with C semantics: both the quotient and the remainder carry the sign.
   */
  lemma NegativeExamples()
    ensures Fixed(-5) == "0.-05"
    ensures Fixed(-1500) == "-1.-500"
  {
    assert Digits(500) == Digits(50) + ['0'];
    assert Digits(50) == Digits(5) + ['0'];
  }

  /** Renderings hold only digits, dots and minus signs. */
  lemma {:induction false} FixedAlphabet(n: int)
    ensures forall i :: 0 <= i < |Fixed(n)| ==> IsDigit(Fixed(n)[i]) || Fixed(n)[i] in ".-"
  {
  }
}
