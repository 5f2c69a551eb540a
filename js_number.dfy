/** The global `parseInt` of ECMA-262 (section 19.2.5 in recent editions), called
    without a radix, and the decimal text `String(n)` gives for an integer. */
module JsNumber {
  import opened Js

  /** What `parseInt` returns. The model keeps the integer exact and does not
      distinguish -0 from 0 (`String(-0)` is "0" as well). */
  datatype ParsedInt = NaN | Int(value: int)

  predicate IsDecimalDigit(c: char) {
    '0' <= c <= '9'
  }

  /** The digit value of `c` in radices up to 36; 36 for a character that is a digit in none. */
  function DigitValue(c: char): (d: nat)
    ensures d <= 36
    ensures d < 10 <==> IsDecimalDigit(c)
  {
    if '0' <= c <= '9' then c as int - '0' as int
    else if 'a' <= c <= 'z' then c as int - 'a' as int + 10
    else if 'A' <= c <= 'Z' then c as int - 'A' as int + 10
    else 36
  }

  predicate IsDigitIn(c: char, radix: nat) {
    DigitValue(c) < radix
  }

  /** The longest prefix of `s` made of digits of `radix`. */
  function DigitPrefix(s: string, radix: nat): (z: string)
    ensures |z| <= |s| && z == s[..|z|]
    ensures forall i :: 0 <= i < |z| ==> IsDigitIn(z[i], radix)
    ensures |z| < |s| ==> !IsDigitIn(s[|z|], radix)
  {
    if s != [] && IsDigitIn(s[0], radix) then [s[0]] + DigitPrefix(s[1..], radix) else []
  }

  /** The number the digit string `z` denotes in `radix`, most significant digit first. */
  function DigitsValue(z: string, radix: nat): nat {
    if z == [] then 0 else DigitsValue(z[..|z| - 1], radix) * radix + DigitValue(z[|z| - 1])
  }

  /** A leading `-` makes the result negative. */
  function Sign(t: string): int {
    if t != [] && t[0] == '-' then -1 else 1
  }

  /** What is left after one optional `+` or `-`. */
  function Unsigned(t: string): string {
    if t != [] && (t[0] == '+' || t[0] == '-') then t[1..] else t
  }

  /** With no radix given, a leading "0x" or "0X" selects radix 16. */
  predicate HasHexPrefix(u: string) {
    |u| >= 2 && u[0] == '0' && (u[1] == 'x' || u[1] == 'X')
  }

  /** `parseInt(s)`: skip white space, then read the number. */
  function ParseInt(s: string): (r: ParsedInt)
    ensures r.Int? && r.value < 0 ==> '-' in s
  {
    ParseNumber(TrimStart(s))
  }

  /** Read a sign, pick the radix, read the longest run of digits; NaN when that
      run is empty. */
  function ParseNumber(t: string): (r: ParsedInt)
    ensures r.Int? ==> t != []
    ensures r.Int? && r.value < 0 ==> t[0] == '-'
  {
    var u := Unsigned(t);
    var radix := if HasHexPrefix(u) then 16 else 10;
    var z := DigitPrefix(if HasHexPrefix(u) then u[2..] else u, radix);
    if z == [] then NaN else Int(Sign(t) * DigitsValue(z, radix))
  }

  /** `parseInt` gives NaN exactly when, after the white space and the sign, there is
      no decimal digit, or there is a hex prefix with no hex digit after it. */
  lemma ParseIntNaN(s: string)
    ensures ParseInt(s).NaN? <==>
      var u := Unsigned(TrimStart(s));
      || u == [] || !IsDecimalDigit(u[0])
      || (HasHexPrefix(u) && (|u| == 2 || !IsDigitIn(u[2], 16)))
  {
    var u := Unsigned(TrimStart(s));
    if u != [] && IsDecimalDigit(u[0]) && !HasHexPrefix(u) {
      assert IsDigitIn(u[0], 10);
      assert DigitPrefix(u, 10) != [];
    }
  }

  /** Leading white space makes no difference. */
  lemma ParseIntSkipsWhiteSpace(w: string, s: string)
    requires AllWhiteSpace(w)
    ensures ParseInt(w + s) == ParseInt(s)
  {
    TrimStartSkipsWhiteSpace(w, s);
  }

  // ---------------------------------------------------------------------------
  // String(n) for an integer n
  // ---------------------------------------------------------------------------

  function DecimalChar(d: nat): (c: char)
    requires d < 10
    ensures IsDecimalDigit(c) && DigitValue(c) == d
  {
    ('0' as int + d) as char
  }

  /** The decimal digits of `n`, without leading zeros. */
  function NatToDecimal(n: nat): (s: string)
    ensures |s| >= 1
    ensures forall i :: 0 <= i < |s| ==> IsDecimalDigit(s[i])
    ensures s[0] == '0' ==> n == 0 && |s| == 1
  {
    if n < 10 then [DecimalChar(n)] else NatToDecimal(n / 10) + [DecimalChar(n % 10)]
  }

  /** `String(n)` for an integer-valued Number (below 10^21 in magnitude in JavaScript). */
  function IntToString(n: int): (s: string)
    ensures s != ""
  {
    if n < 0 then "-" + NatToDecimal(-n) else NatToDecimal(n)
  }

  lemma {:induction false} DecimalValue(n: nat)
    ensures DigitsValue(NatToDecimal(n), 10) == n
  {
    if n >= 10 {
      var s := NatToDecimal(n);
      assert s[..|s| - 1] == NatToDecimal(n / 10);
      DecimalValue(n / 10);
    }
  }

  lemma {:induction false} DigitPrefixOfDigits(s: string, radix: nat)
    requires forall i :: 0 <= i < |s| ==> IsDigitIn(s[i], radix)
    ensures DigitPrefix(s, radix) == s
  {
    if s != [] {
      DigitPrefixOfDigits(s[1..], radix);
    }
  }

  /** Reading back the decimal text of an integer gives that integer: the promotion
      percentage that is stored as text parses to the number it was made from. */
  lemma ParseIntOfIntToString(n: int)
    ensures ParseInt(IntToString(n)) == Int(n)
  {
    var s := IntToString(n);
    var m: nat := if n < 0 then -n else n;
    var d := NatToDecimal(m);
    assert IsDecimalDigit(d[0]);
    TrimStartOfNonSpace(s);
    assert Unsigned(TrimStart(s)) == d by {
      if n < 0 { assert s[1..] == d; }
    }
    assert !HasHexPrefix(d);
    forall i | 0 <= i < |d| ensures IsDigitIn(d[i], 10) {
      assert IsDecimalDigit(d[i]);
    }
    DigitPrefixOfDigits(d, 10);
    DecimalValue(m);
  }

  /** The digit prefix stops at the first character that is not a digit. */
  lemma {:induction false} DigitPrefixStops(d: string, rest: string, radix: nat)
    requires forall i :: 0 <= i < |d| ==> IsDigitIn(d[i], radix)
    requires rest == [] || !IsDigitIn(rest[0], radix)
    ensures DigitPrefix(d + rest, radix) == d
  {
    if d == [] {
      assert d + rest == rest;
    } else {
      assert (d + rest)[0] == d[0];
      assert (d + rest)[1..] == d[1..] + rest;
      DigitPrefixStops(d[1..], rest, radix);
      assert [d[0]] + d[1..] == d;
    }
  }

  /** A string that starts with a digit has no white space or sign to skip. */
  lemma ParseIntOfDigit(s: string)
    requires s != [] && IsDecimalDigit(s[0])
    ensures ParseInt(s) == ParseNumber(s)
    ensures Unsigned(s) == s && Sign(s) == 1
  {
    TrimStartOfNonSpace(s);
  }

  /** Whatever follows the leading decimal digits is ignored: `parseInt("15% OFF")`
      is 15. */
  lemma ParseIntIgnoresTrailingText(d: string, rest: string)
    requires d != [] && forall i :: 0 <= i < |d| ==> IsDecimalDigit(d[i])
    requires rest == [] || !IsDecimalDigit(rest[0])
    requires !HasHexPrefix(d + rest)
    ensures ParseInt(d + rest) == Int(DigitsValue(d, 10))
  {
    var s := d + rest;
    assert s[0] == d[0];
    ParseIntOfDigit(s);
    forall i | 0 <= i < |d| ensures IsDigitIn(d[i], 10) {
      assert IsDecimalDigit(d[i]);
    }
    DigitPrefixStops(d, rest, 10);
  }

  /** After "0x" or "0X", `parseInt` reads hex digits. */
  lemma ParseIntOfHexPrefix(x: char, t: string)
    requires x == 'x' || x == 'X'
    ensures ParseInt(['0', x] + t) ==
              var z := DigitPrefix(t, 16); if z == [] then NaN else Int(DigitsValue(z, 16))
  {
    var s := ['0', x] + t;
    ParseIntOfDigit(s);
    assert s[2..] == t;
  }

  /** Called without a radix, `parseInt` reads "0x" or "0X" followed by hex digits
      in radix 16 (`parseInt("0x1A")` is 26), and again ignores what follows. */
  lemma ParseIntHonoursHexPrefix(x: char, h: string, rest: string)
    requires x == 'x' || x == 'X'
    requires h != [] && forall i :: 0 <= i < |h| ==> IsDigitIn(h[i], 16)
    requires rest == [] || !IsDigitIn(rest[0], 16)
    ensures ParseInt(['0', x] + (h + rest)) == Int(DigitsValue(h, 16))
  {
    ParseIntOfHexPrefix(x, h + rest);
    DigitPrefixStops(h, rest, 16);
  }

  /** Text that does not start with a digit is NaN. */
  lemma ParseIntOfWord()
    ensures ParseInt("abc") == NaN
  {
    TrimStartOfNonSpace("abc");
  }
}
