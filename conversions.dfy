/**
 * The character classes and number conversions of the C++ standard library
 * that the recorder relies on: `isspace` in the "C" locale (which is what
 * `operator>>` on an `istringstream` splits on), `std::to_string(int)` and
 * `std::stoi`. On the recorder's platform `long` and `int` are both 32 bits
 * wide, so `std::stoi` accepts exactly the values of `int32`.
 */
module Conversions {
  import opened Wrappers

  const INT_MIN: int := -0x8000_0000
  const INT_MAX: int := 0x7FFF_FFFF

  /** The C `int` (32 bits, two's complement). */
  type int32 = x: int | -0x8000_0000 <= x <= 0x7FFF_FFFF

  /** `isspace` in the "C" locale: space, \t, \n, \v, \f and \r. */
  predicate IsSpace(c: char) {
    c == ' ' || c == '\t' || c == '\n' || c == '\U{000B}' || c == '\U{000C}' || c == '\r'
  }

  predicate IsDigit(c: char) {
    '0' <= c <= '9'
  }

  predicate AllDigits(s: string) {
    forall i :: 0 <= i < |s| ==> IsDigit(s[i])
  }

  function DigitChar(d: nat): (c: char)
    requires d < 10
    ensures IsDigit(c) && c as int - '0' as int == d
  {
    ('0' as int + d) as char
  }

  /** The value of a string of decimal digits, most significant digit first. */
  function DigitsValue(s: string): nat
    requires AllDigits(s)
  {
    if s == [] then 0 else DigitsValue(s[..|s| - 1]) * 10 + (s[|s| - 1] as int - '0' as int)
  }

  /** The decimal rendering of a natural number, without leading zeros. */
  function NatToString(n: nat): (s: string)
    ensures 1 <= |s| && AllDigits(s)
    ensures n < 10 <==> |s| == 1
  {
    if n < 10 then [DigitChar(n)] else NatToString(n / 10) + [DigitChar(n % 10)]
  }

  /** `std::to_string(int)`: a minus sign for negative values, then the digits. */
  function IntToString(n: int): (s: string)
    ensures |s| >= 1
    ensures forall i :: 0 <= i < |s| ==> !IsSpace(s[i])
  {
    if n < 0 then "-" + NatToString(-n) else NatToString(n)
  }

  /** The number of leading decimal digits of `s`. */
  function DigitPrefixLength(s: string): (k: nat)
    ensures k <= |s| && AllDigits(s[..k])
    ensures k < |s| ==> !IsDigit(s[k])
  {
    if s == [] || !IsDigit(s[0]) then 0
    else
      var k := 1 + DigitPrefixLength(s[1..]);
      assert s[..k] == [s[0]] + s[1..][..k - 1];
      k
  }

  /**
   * `std::stoi(s)` (base 10), which returns a value or throws. It skips leading
   * white space, reads an optional sign and then the longest run of decimal
   * digits; it throws `invalid_argument` when there is no digit and
   * `out_of_range` when the value does not fit in an `int`. Both exceptions
   * are `None` here; characters after the digits are ignored.
   */
  function Stoi(s: string): Option<int32> {
    if s != [] && IsSpace(s[0]) then Stoi(s[1..]) else ParseSigned(s)
  }

  /** The part of `std::stoi` after the leading white space: sign, digits, range check. */
  function ParseSigned(s: string): Option<int32> {
    var negative := s != [] && s[0] == '-';
    var sign := if s != [] && (s[0] == '-' || s[0] == '+') then 1 else 0;
    var rest := s[sign..];
    var digits := rest[..DigitPrefixLength(rest)];
    if digits == [] then None
    else
      var magnitude: int := DigitsValue(digits);
      var v := if negative then -magnitude else magnitude;
      if INT_MIN <= v <= INT_MAX then Some(v) else None
  }

  lemma {:induction false} DigitsValueOfNatToString(n: nat)
    ensures DigitsValue(NatToString(n)) == n
  {
    if n >= 10 {
      var s := NatToString(n);
      assert s[..|s| - 1] == NatToString(n / 10);
      DigitsValueOfNatToString(n / 10);
    }
  }

  /** Leading zeros do not change the value of a digit string. */
  lemma {:induction false} DigitsValueLeadingZeros(z: string, s: string)
    requires forall i :: 0 <= i < |z| ==> z[i] == '0'
    requires AllDigits(s)
    ensures AllDigits(z + s) && DigitsValue(z + s) == DigitsValue(s)
    decreases |z| + |s|
  {
    var t := z + s;
    assert AllDigits(t) by {
      forall i | 0 <= i < |t| ensures IsDigit(t[i]) {
        if i < |z| { assert t[i] == z[i]; } else { assert t[i] == s[i - |z|]; }
      }
    }
    if s == [] {
      if z != [] {
        assert z == z[..|z| - 1] + [z[|z| - 1]];
        assert t[..|t| - 1] == z[..|z| - 1] + [];
        DigitsValueLeadingZeros(z[..|z| - 1], []);
      }
    } else {
      assert t[..|t| - 1] == z + s[..|s| - 1];
      DigitsValueLeadingZeros(z, s[..|s| - 1]);
    }
  }

  /** What `std::stoi` reads back from `std::to_string` is the original value. */
  lemma StoiOfIntToString(n: int32)
    ensures Stoi(IntToString(n)) == Some(n)
  {
    var s := IntToString(n);
    var m: nat := if n < 0 then -(n as int) else n as int;
    var d := NatToString(m);
    DigitPrefixAllDigits(d);
    assert d[..|d|] == d;
    DigitsValueOfNatToString(m);
    assert !IsSpace(s[0]);
    if n < 0 {
      assert s == "-" + d;
      assert s[1..] == d;
      assert ParseSigned(s) == Some(n);
    } else {
      assert s == d && IsDigit(s[0]);
      assert s[0..] == d;
      assert ParseSigned(s) == Some(n);
    }
  }

  lemma {:induction false} DigitPrefixAllDigits(s: string)
    requires AllDigits(s)
    ensures DigitPrefixLength(s) == |s|
  {
    if s != [] {
      DigitPrefixAllDigits(s[1..]);
    }
  }

  /** Leading white space is skipped: `std::stoi` reads past any run of it. */
  lemma {:induction false} StoiSkipsSpace(w: string, s: string)
    requires forall i :: 0 <= i < |w| ==> IsSpace(w[i])
    ensures Stoi(w + s) == Stoi(s)
  {
    if w != [] {
      assert (w + s)[0] == w[0] && (w + s)[1..] == w[1..] + s;
      StoiSkipsSpace(w[1..], s);
    } else {
      assert w + s == s;
    }
  }

  /** The digit prefix of `d + rest` is all of `d` when `rest` does not go on with a digit. */
  lemma {:induction false} DigitPrefixStopsAfter(d: string, rest: string)
    requires AllDigits(d)
    requires rest == [] || !IsDigit(rest[0])
    ensures DigitPrefixLength(d + rest) == |d|
  {
    if d != [] {
      assert (d + rest)[0] == d[0] && (d + rest)[1..] == d[1..] + rest;
      DigitPrefixStopsAfter(d[1..], rest);
    }
  }

  /**
   * After an optional sign, `std::stoi` reads the longest run of digits and
   * ignores what follows: a `-` negates, a `+` changes nothing, and the value
   * is returned iff it fits in `int`.
   */
  lemma StoiLongestPrefix(sign: string, d: string, rest: string)
    requires sign == "" || sign == "-" || sign == "+"
    requires d != [] && AllDigits(d)
    requires rest == [] || !IsDigit(rest[0])
    ensures Stoi(sign + d + rest) == Stoi(sign + d)
    ensures var v: int := if sign == "-" then 0 - DigitsValue(d) else DigitsValue(d);
      Stoi(sign + d + rest) == if INT_MIN <= v <= INT_MAX then Some(v) else None
  {
    DigitPrefixStopsAfter(d, rest);
    SignedDigits(sign, d, rest);
    DigitPrefixStopsAfter(d, []);
    assert d + [] == d && sign + d + [] == sign + d;
    SignedDigits(sign, d, []);
  }

  lemma SignedDigits(sign: string, d: string, rest: string)
    requires sign == "" || sign == "-" || sign == "+"
    requires d != [] && AllDigits(d) && DigitPrefixLength(d + rest) == |d|
    ensures var v: int := if sign == "-" then 0 - DigitsValue(d) else DigitsValue(d);
      Stoi(sign + d + rest) == if INT_MIN <= v <= INT_MAX then Some(v) else None
  {
    var s := sign + d + rest;
    assert s[0] == if sign == "" then d[0] else sign[0];
    assert !IsSpace(s[0]);
    assert s[|sign|..] == d + rest;
    assert (d + rest)[..|d|] == d;
  }

  /** `std::stoi` throws unless the string holds a digit somewhere. */
  lemma {:induction false} StoiNeedsDigit(s: string)
    ensures Stoi(s).Some? ==> exists i :: 0 <= i < |s| && IsDigit(s[i])
  {
    if Stoi(s).Some? {
      if s != [] && IsSpace(s[0]) {
        StoiNeedsDigit(s[1..]);
        var i :| 0 <= i < |s[1..]| && IsDigit(s[1..][i]);
        assert IsDigit(s[i + 1]);
      } else {
        var k := if s != [] && (s[0] == '-' || s[0] == '+') then 1 else 0;
        var rest := s[k..];
        assert DigitPrefixLength(rest) > 0;
        assert IsDigit(s[k]);
      }
    }
  }

  /** Examples: `std::stoi` reads only the leading digits and honours one sign character. */
  lemma StoiReadsDigitPrefix()
    ensures Stoi("0abc") == Some(0)
    ensures Stoi("-17") == Some(-17)
  {
    assert "0abc"[1..] == "abc" && "0abc"[..1] == "0" && "0"[..0] == "";
    assert DigitPrefixLength("0abc") == 1;
    assert "-17"[1..] == "17" && "17"[1..] == "7" && "7"[1..] == "";
    assert DigitPrefixLength("17") == 2;
    assert "17"[..2] == "17" && "17"[..1] == "1" && "1"[..0] == "";
    assert DigitsValue("17") == 17;
  }

  /** Examples: without a leading digit `std::stoi` throws. */
  lemma StoiNeedsADigit()
    ensures Stoi("abc") == None
    ensures Stoi("") == None
    ensures Stoi("-x") == None
  {
    assert "-x"[1..] == "x";
  }

  /** A decimal numeral, with or without a minus sign, is read back exactly when its value fits in `int`. */
  lemma StoiOfNumeral(n: nat, negative: bool)
    ensures var v: int := if negative then 0 - n as int else n as int;
      Stoi((if negative then "-" else "") + NatToString(n)) == if INT_MIN <= v <= INT_MAX then Some(v) else None
  {
    var d := NatToString(n);
    var sign := if negative then "-" else "";
    DigitPrefixAllDigits(d);
    DigitsValueOfNatToString(n);
    assert d + [] == d && sign + d + [] == sign + d;
    SignedDigits(sign, d, []);
  }
}
