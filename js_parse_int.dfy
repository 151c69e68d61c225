/** The ECMAScript global `parseInt` called without a radix (section 19.2.5
    of ECMA-262), on the mathematical integers, and the `parseInt(v) || 0`
    idiom the routine form uses for its numeric inputs. */
module JsParseInt {
  import opened Common

  /** StrWhiteSpaceChar: the white space and line terminator code points that
      `parseInt` skips at the start of its input. */
  predicate IsJsWhitespace(c: char)
  {
    c == '\t' || c == '\n' || c == '\U{000B}' || c == '\U{000C}' || c == '\r'
    || c == ' ' || c == '\U{00A0}' || c == '\U{1680}'
    || ('\U{2000}' <= c <= '\U{200A}')
    || c == '\U{2028}' || c == '\U{2029}' || c == '\U{202F}' || c == '\U{205F}'
    || c == '\U{3000}' || c == '\U{FEFF}'
  }

  /** Drops the leading white space. */
  function TrimStart(s: string): (t: string)
    ensures |t| <= |s| && t == s[|s| - |t|..]
    ensures |t| > 0 ==> !IsJsWhitespace(t[0])
  {
    if |s| > 0 && IsJsWhitespace(s[0]) then TrimStart(s[1..]) else s
  }

  predicate IsDecimalDigit(c: char)
  {
    '0' <= c <= '9'
  }

  predicate IsDigit(c: char, hex: bool)
  {
    IsDecimalDigit(c) || (hex && (('a' <= c <= 'f') || ('A' <= c <= 'F')))
  }

  function DigitValue(c: char, hex: bool): (d: nat)
    requires IsDigit(c, hex)
    ensures d < (if hex then 16 else 10)
  {
    if IsDecimalDigit(c) then c as int - '0' as int
    else if 'a' <= c <= 'f' then c as int - 'a' as int + 10
    else c as int - 'A' as int + 10
  }

  /** The longest prefix of `s` made of digits of the radix. */
  function DigitPrefix(s: string, hex: bool): (z: string)
    ensures |z| <= |s| && z == s[..|z|]
    ensures forall i | 0 <= i < |z| :: IsDigit(z[i], hex)
    ensures |z| < |s| ==> !IsDigit(s[|z|], hex)
  {
    if |s| > 0 && IsDigit(s[0], hex) then [s[0]] + DigitPrefix(s[1..], hex) else []
  }

  /** Value of a digit string, most significant digit first. */
  function DigitsValue(z: string, hex: bool): (v: nat)
    requires forall i | 0 <= i < |z| :: IsDigit(z[i], hex)
  {
    if z == [] then 0
    else DigitsValue(z[..|z| - 1], hex) * (if hex then 16 else 10) + DigitValue(z[|z| - 1], hex)
  }

  /** Drops one leading "+" or "-". */
  function StripSign(t: string): (u: string)
  {
    if |t| > 0 && (t[0] == '-' || t[0] == '+') then t[1..] else t
  }

  predicate HasHexPrefix(u: string)
  {
    |u| >= 2 && u[0] == '0' && (u[1] == 'x' || u[1] == 'X')
  }

  /** Reads the digits after the sign: radix 16 after a "0x" or "0X" prefix,
      radix 10 otherwise; `None` when no digit follows. */
  function ParseMagnitude(u: string): (m: Option<nat>)
    ensures m.Some? ==> |u| > 0 && IsDecimalDigit(u[0])
  {
    var hex := HasHexPrefix(u);
    var z := DigitPrefix(if hex then u[2..] else u, hex);
    if z == [] then None else Some(DigitsValue(z, hex))
  }

  /** `parseInt(s)`: skip leading white space, read an optional sign, then the
      magnitude; `None` stands for NaN. */
  function ParseInt(s: string): (r: Option<int>)
    ensures r.Some? ==> var t := TrimStart(s);
              |t| > 0 && (IsDecimalDigit(t[0]) || t[0] == '-' || t[0] == '+')
    ensures r.Some? && r.value < 0 ==> var t := TrimStart(s); |t| > 0 && t[0] == '-'
  {
    var t := TrimStart(s);
    var negative := |t| > 0 && t[0] == '-';
    match ParseMagnitude(StripSign(t))
    case None => None
    case Some(m) => Some(if negative then -(m as int) else m as int)
  }

  /** `parseInt(s) || 0`: NaN (and zero) become 0. */
  function IntOrZero(s: string): (n: int)
    ensures ParseInt(s).None? ==> n == 0
    ensures ParseInt(s).Some? ==> n == ParseInt(s).value
  {
    match ParseInt(s)
    case Some(n) => n
    case None => 0
  }

  /** Canonical decimal text of a natural number. */
  function DecimalString(n: nat): (s: string)
    ensures |s| > 0
    ensures forall i | 0 <= i < |s| :: IsDecimalDigit(s[i])
  {
    if n < 10 then [('0' as int + n) as char]
    else DecimalString(n / 10) + [('0' as int + n % 10) as char]
  }

  lemma {:induction false} DigitPrefixOfDigits(s: string, hex: bool)
    requires forall i | 0 <= i < |s| :: IsDigit(s[i], hex)
    ensures DigitPrefix(s, hex) == s
  {
    if |s| > 0 {
      DigitPrefixOfDigits(s[1..], hex);
    }
  }

  lemma {:induction false} DecimalStringValue(n: nat)
    ensures DigitsValue(DecimalString(n), false) == n
  {
    var s := DecimalString(n);
    if n >= 10 {
      DecimalStringValue(n / 10);
      assert s[..|s| - 1] == DecimalString(n / 10);
    }
  }

  lemma DecimalMagnitude(n: nat)
    ensures ParseMagnitude(DecimalString(n)) == Some(n)
  {
    var d := DecimalString(n);
    assert !HasHexPrefix(d) by {
      if |d| >= 2 { assert IsDecimalDigit(d[1]); }
    }
    DigitPrefixOfDigits(d, false);
    DecimalStringValue(n);
  }

  lemma DigitIsNotBlank(s: string)
    requires |s| > 0 && (IsDecimalDigit(s[0]) || s[0] == '-')
    ensures TrimStart(s) == s
  {
    assert !IsJsWhitespace(s[0]);
  }

  /** Decimal text reads back as its value: `parseInt` of the canonical
      form of n is n, and of "-" followed by it is -n. */
  lemma DecimalRoundTrip(n: nat)
    ensures IntOrZero(DecimalString(n)) == n
    ensures IntOrZero("-" + DecimalString(n)) == -(n as int)
  {
    ParsePositive(n);
    ParseNegative(n);
  }

  lemma ParsePositive(n: nat)
    ensures ParseInt(DecimalString(n)) == Some(n as int)
  {
    var d := DecimalString(n);
    DecimalMagnitude(n);
    DigitIsNotBlank(d);
    assert StripSign(d) == d;
  }

  lemma ParseNegative(n: nat)
    ensures ParseInt("-" + DecimalString(n)) == Some(-(n as int))
  {
    var d := DecimalString(n);
    DecimalMagnitude(n);
    var m := "-" + d;
    DigitIsNotBlank(m);
    assert StripSign(m) == d;
  }

  /** Text whose first non-blank character is neither a sign nor a digit is
      NaN, and so stored as 0. */
  lemma NoDigitsIsZero(s: string)
    requires var t := TrimStart(s); |t| == 0 || !(IsDecimalDigit(t[0]) || t[0] == '-' || t[0] == '+')
    ensures ParseInt(s) == None
    ensures IntOrZero(s) == 0
  {
  }

  /** An empty or non-numeric field is stored as 0. */
  lemma NonNumericExamples()
    ensures IntOrZero("") == 0
    ensures IntOrZero("abc") == 0
  {
    assert TrimStart("abc") == "abc";
    assert DigitPrefix("abc", false) == [];
  }

  /** The digit prefix of digits followed by a non-digit is those digits. */
  lemma {:induction false} DigitPrefixStops(z: string, tail: string, hex: bool)
    requires forall i | 0 <= i < |z| :: IsDigit(z[i], hex)
    requires |tail| == 0 || !IsDigit(tail[0], hex)
    ensures DigitPrefix(z + tail, hex) == z
  {
    if |z| > 0 {
      assert (z + tail)[1..] == z[1..] + tail;
      DigitPrefixStops(z[1..], tail, hex);
      assert [z[0]] + z[1..] == z;
    } else {
      assert z + tail == tail;
    }
  }

  /** The first character that is not a decimal digit ends the number: the
      decimal text of n followed by any such tail ("3.7", "12abc", "5 ")
      reads as n. The one exception is an 'x' or 'X' right after a lone "0",
      which starts a hexadecimal number instead. */
  lemma DecimalThenNonDigit(n: nat, tail: string)
    requires |tail| == 0 || (!IsDecimalDigit(tail[0]) && !(n == 0 && (tail[0] == 'x' || tail[0] == 'X')))
    ensures IntOrZero(DecimalString(n) + tail) == n
  {
    var s := DecimalString(n) + tail;
    MagnitudeThenNonDigit(n, tail);
    DigitIsNotBlank(s);
    assert StripSign(s) == s;
    assert ParseInt(s) == Some(n as int);
  }

  lemma MagnitudeThenNonDigit(n: nat, tail: string)
    requires |tail| == 0 || (!IsDecimalDigit(tail[0]) && !(n == 0 && (tail[0] == 'x' || tail[0] == 'X')))
    ensures var s := DecimalString(n) + tail; |s| > 0 && IsDecimalDigit(s[0]) && ParseMagnitude(s) == Some(n)
  {
    var d := DecimalString(n);
    var s := d + tail;
    assert s[0] == d[0];
    assert !HasHexPrefix(s) by {
      if |s| >= 2 {
        if |d| >= 2 { assert s[1] == d[1]; assert IsDecimalDigit(d[1]); }
        else {
          assert s[1] == tail[0];
          assert n < 10 && d == [('0' as int + n) as char];
        }
      }
    }
    DigitPrefixStops(d, tail, false);
    DecimalStringValue(n);
  }

  /** A decimal point ends the digits. */
  lemma DecimalPointExample()
    ensures IntOrZero("3.7") == 3
  {
    DecimalThenNonDigit(3, ".7");
    assert DecimalString(3) + ".7" == "3.7";
  }

  /** A "0x" prefix switches to hexadecimal. */
  lemma HexExample()
    ensures IntOrZero("0x1A") == 26
  {
    var h := "0x1A";
    assert TrimStart(h) == h;
    assert HasHexPrefix(h);
    var hd := h[2..];
    assert hd == ['1', 'A'];
    assert DigitPrefix(hd[1..], true) == ['A'];
    assert DigitPrefix(hd, true) == hd;
    assert hd[..1] == ['1'];
    assert ['1'][..0] == [];
    assert DigitsValue(['1'], true) == 1;
    assert DigitsValue(hd, true) == 26;
    assert StripSign(h) == h;
  }
}
