/**
 * The JavaScript built-ins the forecast normaliser relies on: `parseInt`
 * with no radix, `String(n)` of an integer below 1e21 (where JavaScript
 * still writes plain digits) and `padStart` with a one-character filler.
 * Strings are sequences of Unicode scalar values rather than UTF-16 code
 * units; every character `parseInt` tests lies in the Basic Multilingual
 * Plane and every padded string is ASCII, so the two agree here.
 */
module JsText {
  import opened Wrappers

  /** WhiteSpace and LineTerminator characters, which `parseInt` skips first. */
  predicate IsStrWhiteSpace(c: char)
  {
    var n := c as int;
    n == 0x09 || n == 0x0A || n == 0x0B || n == 0x0C || n == 0x0D || n == 0x20 ||
    n == 0xA0 || n == 0x1680 || (0x2000 <= n <= 0x200A) || n == 0x2028 ||
    n == 0x2029 || n == 0x202F || n == 0x205F || n == 0x3000 || n == 0xFEFF
  }

  /** The digit value `parseInt` gives a code unit: 0-9 for decimal digits,
      10-35 for Latin letters of either case, 36 for anything else. */
  function CharDigit(c: char): (v: nat)
    ensures v <= 36
    ensures v < 10 <==> '0' <= c <= '9'
  {
    if '0' <= c <= '9' then c as int - '0' as int
    else if 'a' <= c <= 'z' then c as int - 'a' as int + 10
    else if 'A' <= c <= 'Z' then c as int - 'A' as int + 10
    else 36
  }

  predicate AllDigits(z: string, radix: nat)
  {
    forall i :: 0 <= i < |z| ==> CharDigit(z[i]) < radix
  }

  /** The number that a string of digits denotes in the given radix. */
  function DigitsValue(z: string, radix: nat): nat
    requires AllDigits(z, radix)
  {
    if z == [] then 0 else DigitsValue(z[..|z| - 1], radix) * radix + CharDigit(z[|z| - 1])
  }

  /** Step 2 of `parseInt`: drop the leading white space. */
  function TrimStart(s: string): (t: string)
    ensures |t| <= |s| && t == s[|s| - |t|..]
    ensures t == [] || !IsStrWhiteSpace(t[0])
    ensures forall i :: 0 <= i < |s| - |t| ==> IsStrWhiteSpace(s[i])
  {
    if s != [] && IsStrWhiteSpace(s[0]) then TrimStart(s[1..]) else s
  }

  /** The longest prefix of `s` made of digits of the radix. */
  function DigitPrefix(s: string, radix: nat): (z: string)
    ensures z <= s && AllDigits(z, radix)
    ensures |z| == |s| || CharDigit(s[|z|]) >= radix
  {
    if s != [] && CharDigit(s[0]) < radix then [s[0]] + DigitPrefix(s[1..], radix) else []
  }

  /** `parseInt(s)` with no radix argument: optional white space, an optional
      sign, then a magnitude; `None` (NaN) when there is no magnitude. The
      sign of `-0` is not kept (it compares like 0). */
  function ParseInt(s: string): Option<int>
  {
    var t := TrimStart(s);
    if t != [] && t[0] == '-' then
      match ParseMagnitude(t[1..])
      case None => None
      case Some(m) => Some(-(m as int))
    else if t != [] && t[0] == '+' then ParseMagnitude(t[1..])
    else ParseMagnitude(t)
  }

  /** An optional `0x`/`0X` prefix selecting radix 16, then the longest run
      of digits of the radix. */
  function ParseMagnitude(u: string): Option<nat>
  {
    if |u| >= 2 && u[0] == '0' && (u[1] == 'x' || u[1] == 'X') then DigitRun(u[2..], 16)
    else DigitRun(u, 10)
  }

  function DigitRun(v: string, radix: nat): Option<nat>
  {
    var z := DigitPrefix(v, radix);
    if z == [] then None else Some(DigitsValue(z, radix))
  }

  function DigitChar(d: nat): (c: char)
    requires d < 10
    ensures CharDigit(c) == d
  {
    ('0' as int + d) as char
  }

  /** `String(n)` for a non-negative integer below 1e21: decimal digits, no
      leading zero. */
  function NatToString(n: nat): (s: string)
    ensures s != [] && AllDigits(s, 10)
    ensures DigitsValue(s, 10) == n
    ensures s[0] == '0' <==> n == 0
  {
    if n < 10 then [DigitChar(n)]
    else
      var init := NatToString(n / 10);
      var s := init + [DigitChar(n % 10)];
      assert s[..|s| - 1] == init;
      s
  }

  /** `String(n)` for an integer of magnitude below 1e21. */
  function IntToString(n: int): string
  {
    if n < 0 then "-" + NatToString(-n) else NatToString(n)
  }

  /** `s.padStart(target, fill)` for a one-character filler. */
  function PadStart(s: string, target: nat, fill: char): (r: string)
    ensures |r| == if |s| < target then target else |s|
    ensures r[|r| - |s|..] == s
    ensures forall i :: 0 <= i < |r| - |s| ==> r[i] == fill
  {
    if |s| < target then seq(target - |s|, _ => fill) + s else s
  }

  /** A run of decimal digits followed by something that is neither a digit
      nor a letter parses back to the number the digits denote. */
  lemma ParseIntOfDigits(z: string, rest: string)
    requires z != [] && AllDigits(z, 10)
    requires rest == [] || CharDigit(rest[0]) == 36
    ensures ParseInt(z + rest) == Some(DigitsValue(z, 10))
  {
    var s := z + rest;
    assert s[0] == z[0] && CharDigit(z[0]) < 10;
    TrimStartOfDigit(s);
    assert s[0] != '-' && s[0] != '+';
    ParseMagnitudeOfDigits(z, rest);
  }

  lemma TrimStartOfDigit(s: string)
    requires s != [] && CharDigit(s[0]) < 10
    ensures TrimStart(s) == s
  {
    assert !IsStrWhiteSpace(s[0]);
  }

  lemma ParseMagnitudeOfDigits(z: string, rest: string)
    requires z != [] && AllDigits(z, 10)
    requires rest == [] || CharDigit(rest[0]) == 36
    ensures ParseMagnitude(z + rest) == Some(DigitsValue(z, 10))
  {
    var s := z + rest;
    assert |s| >= 2 ==> s[1] != 'x' && s[1] != 'X' by {
      if |z| >= 2 { assert s[1] == z[1] && CharDigit(z[1]) < 10; }
      else if |s| >= 2 { assert s[1] == rest[0]; }
    }
    DigitPrefixOfDigits(z, rest, 10);
  }

  lemma {:induction false} DigitPrefixOfDigits(z: string, rest: string, radix: nat)
    requires AllDigits(z, radix)
    requires rest == [] || CharDigit(rest[0]) >= radix
    ensures DigitPrefix(z + rest, radix) == z
  {
    if z == [] {
      assert z + rest == rest;
    } else {
      assert z + rest == [z[0]] + (z[1..] + rest);
      DigitPrefixOfDigits(z[1..], rest, radix);
    }
  }

  /** `parseInt` inverts `String` on integers, whatever non-alphanumeric text
      follows the number (a unit such as `" mph"`, say). */
  lemma ParseIntOfIntToString(n: int, rest: string)
    requires rest == [] || CharDigit(rest[0]) == 36
    ensures ParseInt(IntToString(n) + rest) == Some(n)
  {
    if n < 0 {
      var z := NatToString(-n);
      assert IntToString(n) + rest == "-" + (z + rest);
      ParseIntOfNegated(z, rest);
    } else {
      ParseIntOfDigits(NatToString(n), rest);
    }
  }

  lemma ParseIntOfNegated(z: string, rest: string)
    requires z != [] && AllDigits(z, 10)
    requires rest == [] || CharDigit(rest[0]) == 36
    ensures ParseInt("-" + (z + rest)) == Some(-(DigitsValue(z, 10) as int))
  {
    ParseMagnitudeOfDigits(z, rest);
    ParseIntOfMinus(z + rest);
  }

  /** A leading minus sign negates the magnitude that follows it. */
  lemma ParseIntOfMinus(u: string)
    ensures ParseInt("-" + u) == match ParseMagnitude(u)
                                 case None => None
                                 case Some(m) => Some(-(m as int))
  {
    var s := "-" + u;
    assert s[0] == '-' && !IsStrWhiteSpace(s[0]);
    assert TrimStart(s) == s;
    assert s[1..] == u;
  }

  lemma IntToStringInjective(a: int, b: int)
    requires IntToString(a) == IntToString(b)
    ensures a == b
  {
    ParseIntOfIntToString(a, []);
    ParseIntOfIntToString(b, []);
    assert IntToString(a) + [] == IntToString(a);
    assert IntToString(b) + [] == IntToString(b);
  }
}
