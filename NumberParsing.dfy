/**
  JavaScript's global `parseInt(string)` with no radix argument, which the
  quantity input applies to the field's text: skip leading white space, read
  an optional sign, switch to base 16 after a `0x` or `0X` prefix, then take
  the longest run of digits; no digits at all gives `NaN`, modelled as None.
 */
module NumberParsing {

  import opened Wrappers

  /** The white space `parseInt` skips before the number. */
  predicate IsWhiteSpace(c: char)
  {
    c == ' ' || c == '\t' || c == '\n' || c == '\r' || c == '\U{B}' || c == '\U{C}' ||
    c == '\U{A0}' || c == '\U{FEFF}' || c == '\U{2028}' || c == '\U{2029}'
  }

  /** The value of a digit in bases up to 36 ('0'-'9', then 'a'-'z' or
      'A'-'Z' for 10-35), or 36 when `c` is a digit in no base. */
  function DigitValue(c: char): (d: nat)
    ensures d <= 36
  {
    if '0' <= c <= '9' then (c as int - '0' as int)
    else if 'a' <= c <= 'z' then (c as int - 'a' as int) + 10
    else if 'A' <= c <= 'Z' then (c as int - 'A' as int) + 10
    else 36
  }

  /** The decimal digit character for a value below 10. */
  function DigitChar(d: nat): (c: char)
    requires d < 10
    ensures DigitValue(c) == d
  {
    ('0' as int + d) as char
  }

  /** All characters of `s` are digits in the given base. */
  predicate AllDigits(s: string, radix: nat)
  {
    forall i :: 0 <= i < |s| ==> DigitValue(s[i]) < radix
  }

  /** `s` without its leading white space. */
  function TrimStart(s: string): (r: string)
    ensures |r| <= |s| && r == s[|s| - |r|..]
    ensures r == [] || !IsWhiteSpace(r[0])
    ensures forall i :: 0 <= i < |s| - |r| ==> IsWhiteSpace(s[i])
  {
    if s != [] && IsWhiteSpace(s[0]) then TrimStart(s[1..]) else s
  }

  /** The longest prefix of `s` made of digits in the given base. */
  function DigitPrefix(s: string, radix: nat): (r: string)
    ensures r <= s
    ensures AllDigits(r, radix)
    ensures |r| < |s| ==> DigitValue(s[|r|]) >= radix
  {
    if s != [] && DigitValue(s[0]) < radix then [s[0]] + DigitPrefix(s[1..], radix) else []
  }

  /** The number a run of digits denotes, read most significant digit first. */
  function DigitsValue(ds: string, radix: nat): nat
    requires AllDigits(ds, radix)
  {
    if ds == [] then 0
    else DigitsValue(ds[..|ds| - 1], radix) * radix + DigitValue(ds[|ds| - 1])
  }

  /** The unsigned part: a `0x` or `0X` prefix selects base 16, otherwise
      base 10; None when no digit follows. */
  function ParseMagnitude(u: string): Option<nat>
  {
    var hex := |u| >= 2 && u[0] == '0' && (u[1] == 'x' || u[1] == 'X');
    var radix := if hex then 16 else 10;
    var digits := DigitPrefix(if hex then u[2..] else u, radix);
    if digits == [] then None else Some(DigitsValue(digits, radix))
  }

  /** The text after white space: an optional '-' or '+' sign, then the magnitude. */
  function ParseSigned(t: string): Option<int>
  {
    if t != [] && t[0] == '-' then
      match ParseMagnitude(t[1..])
      case None => None
      case Some(m) => Some(-(m as int))
    else if t != [] && t[0] == '+' then
      match ParseMagnitude(t[1..])
      case None => None
      case Some(m) => Some(m)
    else
      match ParseMagnitude(t)
      case None => None
      case Some(m) => Some(m)
  }

  /** `parseInt(s)`: None stands for `NaN`. */
  function ParseInt(s: string): Option<int>
  {
    ParseSigned(TrimStart(s))
  }

  /** The decimal text of a natural number, without leading zeros. */
  function DecimalString(n: nat): (s: string)
    ensures s != [] && AllDigits(s, 10)
    ensures s[0] == '0' ==> n == 0
  {
    if n < 10 then [DigitChar(n)] else DecimalString(n / 10) + [DigitChar(n % 10)]
  }

  /** The decimal text of an integer, with a leading '-' when negative. */
  function IntString(n: int): string
  {
    if n < 0 then "-" + DecimalString(-n) else DecimalString(n)
  }

  // ---------------------------------------------------------------------------
  // Lemmas

  /** Reading back the decimal text of n gives n. */
  lemma {:induction false} DigitsValueOfDecimal(n: nat)
    ensures DigitsValue(DecimalString(n), 10) == n
  {
    var s := DecimalString(n);
    if n >= 10 {
      DigitsValueOfDecimal(n / 10);
      assert s[..|s| - 1] == DecimalString(n / 10);
    }
  }

  /** The digit run of a string of digits followed by a non-digit is exactly those digits. */
  lemma {:induction false} DigitPrefixStopsAtNonDigit(ds: string, rest: string, radix: nat)
    requires AllDigits(ds, radix)
    requires rest == [] || DigitValue(rest[0]) >= radix
    ensures DigitPrefix(ds + rest, radix) == ds
  {
    if ds != [] {
      assert (ds + rest)[1..] == ds[1..] + rest;
      DigitPrefixStopsAtNonDigit(ds[1..], rest, radix);
    } else {
      assert ds + rest == rest;
    }
  }

  /** The magnitude of decimal digits followed by a non-digit (and not by the
      'x' of a hex prefix) is the number they denote. */
  lemma ParseMagnitudeOfDecimal(m: nat, suffix: string)
    requires suffix == [] || (DigitValue(suffix[0]) >= 10 && suffix[0] != 'x' && suffix[0] != 'X')
    ensures ParseMagnitude(DecimalString(m) + suffix) == Some(m)
  {
    var ds := DecimalString(m);
    var u := ds + suffix;
    assert u[0] == ds[0];
    if |u| >= 2 {
      assert u[1] == if |ds| >= 2 then ds[1] else suffix[0];
    }
    DigitPrefixStopsAtNonDigit(ds, suffix, 10);
    DigitsValueOfDecimal(m);
  }

  /** `parseInt` reads back the decimal text of any integer, and stops at the
      first character that is not a decimal digit (so "2.5" and "2e3" read as
      2); the one exception, a suffix starting with 'x' after "0", is the hex prefix. */
  lemma ParseIntOfIntString(n: int, suffix: string)
    requires suffix == [] || (DigitValue(suffix[0]) >= 10 && suffix[0] != 'x' && suffix[0] != 'X')
    ensures ParseInt(IntString(n) + suffix) == Some(n)
  {
    var m := if n < 0 then -n else n;
    var u := DecimalString(m) + suffix;
    ParseMagnitudeOfDecimal(m, suffix);
    assert u[0] == DecimalString(m)[0];
    SignedDigits(u, m);
    var t := if n < 0 then "-" + u else u;
    assert IntString(n) + suffix == t;
    ParseIntOfSigned(t, n);
  }

  /** Text that starts with a sign or a digit is read by the sign step directly. */
  lemma ParseIntOfSigned(t: string, n: int)
    requires t != [] && (t[0] == '-' || DigitValue(t[0]) < 10)
    requires ParseSigned(t) == Some(n)
    ensures ParseInt(t) == Some(n)
  {
    TrimStartKeeps(t);
  }

  /** Text starting with a digit has no sign; a '-' in front negates it. */
  lemma SignedDigits(u: string, m: nat)
    requires u != [] && DigitValue(u[0]) < 10 && ParseMagnitude(u) == Some(m)
    ensures ParseSigned(u) == Some(m)
    ensures ParseSigned("-" + u) == Some(-(m as int))
  {
    assert ("-" + u)[1..] == u;
  }

  /** Text that does not start with white space is left as it is. */
  lemma TrimStartKeeps(s: string)
    requires s == [] || !IsWhiteSpace(s[0])
    ensures TrimStart(s) == s
  {
  }

  /** Removing leading white space ignores white space put in front. */
  lemma {:induction false} TrimStartSkips(ws: string, s: string)
    requires forall i :: 0 <= i < |ws| ==> IsWhiteSpace(ws[i])
    ensures TrimStart(ws + s) == TrimStart(s)
  {
    if ws != [] {
      assert (ws + s)[1..] == ws[1..] + s;
      TrimStartSkips(ws[1..], s);
    } else {
      assert ws + s == s;
    }
  }

  /** Leading white space does not change what `parseInt` reads. */
  lemma ParseIntSkipsWhiteSpace(ws: string, s: string)
    requires forall i :: 0 <= i < |ws| ==> IsWhiteSpace(ws[i])
    ensures ParseInt(ws + s) == ParseInt(s)
  {
    TrimStartSkips(ws, s);
  }

  /** Text with no decimal digit in it (the empty field among others) is `NaN`. */
  lemma ParseIntWithoutDigits(s: string)
    requires forall i :: 0 <= i < |s| ==> DigitValue(s[i]) >= 10
    ensures ParseInt(s) == None
  {
    var t := TrimStart(s);
    assert forall i :: 0 <= i < |t| ==> DigitValue(t[i]) >= 10 by {
      forall i | 0 <= i < |t| ensures DigitValue(t[i]) >= 10 {
        assert t[i] == s[|s| - |t| + i];
      }
    }
    var unsigned := if t != [] && (t[0] == '-' || t[0] == '+') then t[1..] else t;
    assert unsigned == [] || DigitValue(unsigned[0]) >= 10;
  }
}
