/**
 * The number/string conversions the year filter uses: ECMAScript's
 * `parseInt` without a radix (a failed parse, NaN, is `None`) and the
 * decimal `String(n)` of an integer.
 */
module JsNumbers {
  import opened Wrappers
  import opened Text

  /** The value of a digit character in any radix up to 36: 0-9, then the letters a-z or A-Z. */
  function DigitValue(c: char): Option<nat> {
    if '0' <= c <= '9' then Some(c as int - '0' as int)
    else if 'a' <= c <= 'z' then Some(c as int - 'a' as int + 10)
    else if 'A' <= c <= 'Z' then Some(c as int - 'A' as int + 10)
    else None
  }

  predicate IsDigitIn(c: char, radix: nat) {
    DigitValue(c).Some? && DigitValue(c).value < radix
  }

  /** The length of the longest prefix of `s` made of digits of the radix. */
  function DigitRun(s: string, radix: nat): (n: nat)
    ensures n <= |s|
    ensures forall i :: 0 <= i < n ==> IsDigitIn(s[i], radix)
    ensures n < |s| ==> !IsDigitIn(s[n], radix)
  {
    if s != [] && IsDigitIn(s[0], radix) then 1 + DigitRun(s[1..], radix) else 0
  }

  /** The value of the digits of `high` followed by one more digit `d`. */
  function Append(high: nat, radix: nat, d: nat): nat {
    high * radix + d
  }

  /** The value of a string of digits, most significant first. */
  function DigitsValue(s: string, radix: nat): nat
    requires forall i :: 0 <= i < |s| ==> IsDigitIn(s[i], radix)
  {
    if s == [] then 0
    else
      var init := s[..|s| - 1];
      assert forall i :: 0 <= i < |init| ==> init[i] == s[i];
      assert IsDigitIn(s[|s| - 1], radix);
      Append(DigitsValue(init, radix), radix, DigitValue(s[|s| - 1]).value)
  }

  /**
   * `parseInt(s)`: leading white space is skipped, then an optional sign,
   * then a `0x`/`0X` prefix selects radix 16 (radix 10 otherwise); the
   * longest run of digits that follows is the value, and there is no
   * value when that run is empty.
   */
  function ParseInt(s: string): (r: Option<int>)
    ensures IsBlank(s) ==> r.None?
  {
    var t := TrimStart(s);
    if t != [] && t[0] == '-' then
      match ParseMagnitude(t[1..])
      case None => None
      case Some(m) =>
        var negated := -(m as int);
        Some(negated)
    else if t != [] && t[0] == '+' then ParseMagnitude(t[1..])
    else ParseMagnitude(t)
  }

  /** `u` begins with the `0x` or `0X` that switches `parseInt` to radix 16. */
  predicate HexPrefixed(u: string) {
    |u| >= 2 && u[0] == '0' && (u[1] == 'x' || u[1] == 'X')
  }

  /** The unsigned part of `parseInt`: an optional hexadecimal prefix, then the digit run. */
  function ParseMagnitude(u: string): Option<nat> {
    var hex := HexPrefixed(u);
    var radix := if hex then 16 else 10;
    var v := if hex then u[2..] else u;
    var n := DigitRun(v, radix);
    if n == 0 then None else Some(DigitsValue(v[..n], radix))
  }

  function DigitChar(d: nat): (c: char)
    requires d < 10
    ensures IsDigitIn(c, 10) && DigitValue(c) == Some(d)
  {
    ('0' as int + d) as char
  }

  /** The decimal digits of `n`, without leading zeros. */
  function NatToString(n: nat): (r: string)
    ensures r != []
    ensures forall i :: 0 <= i < |r| ==> IsDigitIn(r[i], 10)
  {
    if n < 10 then [DigitChar(n)] else NatToString(n / 10) + [DigitChar(n % 10)]
  }

  /** `String(n)` for an integer: a minus sign before the digits of a negative number. */
  function IntToString(n: int): (r: string)
    ensures r != [] && (n < 0 <==> r[0] == '-')
  {
    if n < 0 then "-" + NatToString(-n) else NatToString(n)
  }

  /** Reading back the digits of `n` gives `n`. */
  lemma {:induction false} NatToStringValue(n: nat)
    ensures DigitsValue(NatToString(n), 10) == n
  {
    var s := NatToString(n);
    if n >= 10 {
      assert s[..|s| - 1] == NatToString(n / 10);
      NatToStringValue(n / 10);
    }
  }

  /** A non-empty string of decimal digits is read whole, in radix 10. */
  lemma {:induction false} ParseMagnitudeOfDigits(u: string)
    requires u != [] && forall i :: 0 <= i < |u| ==> IsDigitIn(u[i], 10)
    ensures ParseMagnitude(u) == Some(DigitsValue(u, 10))
  {
    assert |u| >= 2 ==> u[1] != 'x' && u[1] != 'X' by {
      if |u| >= 2 { assert IsDigitIn(u[1], 10); }
    }
    assert DigitRun(u, 10) == |u|;
    assert u[..|u|] == u;
  }

  /** A decimal digit is neither white space nor a sign. */
  lemma DigitIsNotBlankOrSign(c: char)
    requires IsDigitIn(c, 10)
    ensures !IsWhitespace(c) && c != '-' && c != '+'
  {
  }

  /** Unsigned text that starts with a digit parses to its magnitude. */
  lemma {:induction false} ParseDigits(u: string, m: nat)
    requires u != [] && IsDigitIn(u[0], 10)
    requires ParseMagnitude(u) == Some(m)
    ensures ParseInt(u) == Some(m)
  {
    ParseAfterBlank("", u, m);
    assert "" + u == u;
  }

  /** A minus sign before text that parses to the magnitude `m` parses to `-m`. */
  lemma {:induction false} ParseNegated(u: string, m: nat)
    requires ParseMagnitude(u) == Some(m)
    ensures ParseInt("-" + u) == Some(-(m as int))
  {
    ParseNegatedAfterBlank("", u, m);
    assert "" + ("-" + u) == "-" + u;
  }

  /** The text `parseInt` reads its digits from: what follows leading white space and an optional sign. */
  function Unsigned(s: string): (u: string)
    ensures |u| <= |s|
  {
    var t := TrimStart(s);
    if t != [] && (t[0] == '-' || t[0] == '+') then t[1..] else t
  }

  /**
   * `parseInt` yields a number exactly when a digit follows the optional
   * sign: a hexadecimal digit after a `0x` prefix, a decimal digit
   * otherwise. So text that starts with a letter, a bare sign, or a bare
   * `0x` is NaN.
   */
  lemma {:induction false} ParseIntDefined(s: string)
    ensures ParseInt(s).Some? <==>
      var u := Unsigned(s);
      if HexPrefixed(u) then |u| > 2 && IsDigitIn(u[2], 16) else u != [] && IsDigitIn(u[0], 10)
  {
    var u := Unsigned(s);
    var v := if HexPrefixed(u) then u[2..] else u;
    assert v != [] ==> v[0] == (if HexPrefixed(u) then u[2] else u[0]);
  }

  /** Skipping the white space in front of text that starts with something else leaves that text. */
  lemma {:induction false} TrimStartBlank(blank: string, x: string)
    requires IsBlank(blank)
    requires x == [] || !IsWhitespace(x[0])
    ensures TrimStart(blank + x) == x
  {
    if blank == [] {
      assert blank + x == x;
    } else {
      assert (blank + x)[1..] == blank[1..] + x;
      TrimStartBlank(blank[1..], x);
    }
  }

  /** The digit run of decimal digits followed by a non-digit is exactly those digits. */
  lemma {:induction false} DigitRunStops(u: string, rest: string)
    requires forall i :: 0 <= i < |u| ==> IsDigitIn(u[i], 10)
    requires rest == [] || !IsDigitIn(rest[0], 10)
    ensures DigitRun(u + rest, 10) == |u|
  {
    if u == [] {
      assert u + rest == rest;
    } else {
      assert (u + rest)[0] == u[0];
      assert (u + rest)[1..] == u[1..] + rest;
      DigitRunStops(u[1..], rest);
    }
  }

  /** Decimal digits followed by a non-digit (and no `x` right after a lone `0`) read as those digits. */
  lemma {:induction false} ParseMagnitudeStops(u: string, rest: string)
    requires u != [] && forall i :: 0 <= i < |u| ==> IsDigitIn(u[i], 10)
    requires rest == [] || (!IsDigitIn(rest[0], 10) && !(u == "0" && (rest[0] == 'x' || rest[0] == 'X')))
    ensures ParseMagnitude(u + rest) == Some(DigitsValue(u, 10))
  {
    var v := u + rest;
    assert v[0] == u[0];
    assert !HexPrefixed(v) by {
      if |u| >= 2 {
        assert v[1] == u[1] && IsDigitIn(u[1], 10);
      } else if |v| >= 2 {
        assert v[1] == rest[0];
      }
    }
    DigitRunStops(u, rest);
    assert v[..|u|] == u;
  }

  /** White space in front of unsigned text that starts with a digit changes nothing. */
  lemma {:induction false} ParseAfterBlank(blank: string, v: string, m: nat)
    requires IsBlank(blank)
    requires v != [] && IsDigitIn(v[0], 10)
    requires ParseMagnitude(v) == Some(m)
    ensures ParseInt(blank + v) == Some(m)
  {
    DigitIsNotBlankOrSign(v[0]);
    TrimStartBlank(blank, v);
  }

  /** White space in front of a minus sign and text that parses to `m` gives `-m`. */
  lemma {:induction false} ParseNegatedAfterBlank(blank: string, v: string, m: nat)
    requires IsBlank(blank)
    requires ParseMagnitude(v) == Some(m)
    ensures ParseInt(blank + ("-" + v)) == Some(-(m as int))
  {
    var s := "-" + v;
    assert s[0] == '-' && s[1..] == v;
    TrimStartBlank(blank, s);
    var t := TrimStart(blank + s);
    assert t[0] == '-' && t[1..] == v;
    assert ParseMagnitude(t[1..]) == Some(m);
  }

  /**
   * `parseInt` reads a decimal number after leading white space and
   * ignores whatever follows the digits, so `"2015abc"` reads as 2015. (A
   * single `0` followed by `x` would start a hexadecimal number instead.)
   */
  lemma {:induction false} ParseIgnoresRest(blank: string, u: string, rest: string)
    requires IsBlank(blank)
    requires u != [] && forall i :: 0 <= i < |u| ==> IsDigitIn(u[i], 10)
    requires rest == [] || (!IsDigitIn(rest[0], 10) && !(u == "0" && (rest[0] == 'x' || rest[0] == 'X')))
    ensures ParseInt(blank + (u + rest)) == Some(DigitsValue(u, 10))
  {
    ParseMagnitudeStops(u, rest);
    assert (u + rest)[0] == u[0];
    ParseAfterBlank(blank, u + rest, DigitsValue(u, 10));
  }

  /** `parseInt(String(n)) == n` for every integer `n`. */
  lemma {:induction false} ParseIntToString(n: int)
    ensures ParseInt(IntToString(n)) == Some(n)
  {
    var m: nat := if n < 0 then -n else n;
    var u := NatToString(m);
    NatToStringValue(m);
    ParseMagnitudeOfDigits(u);
    if n < 0 {
      ParseNegated(u, m);
    } else {
      ParseDigits(u, m);
    }
  }
}
