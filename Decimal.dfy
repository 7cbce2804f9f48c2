/**
 * The two number/string conversions the pages rely on: `String(n)` for the
 * non-negative integer ids and delays, and the global `parseInt(s)` (no radix)
 * that turns the id strings of the flight form back into numbers.
 */
module Decimal {
  import opened Wrappers

  predicate IsDigit(c: char) { '0' <= c <= '9' }

  predicate AllDigits(s: string) { forall i :: 0 <= i < |s| ==> IsDigit(s[i]) }

  function DigitChar(d: nat): (c: char)
    requires d < 10
    ensures IsDigit(c) && c as int - '0' as int == d
  {
    ('0' as int + d) as char
  }

  /** `String(n)` for a non-negative integer: its shortest decimal numeral. */
  function NatToString(n: nat): (s: string)
    ensures |s| > 0 && AllDigits(s)
    ensures (s[0] == '0') == (n == 0)
    decreases n
  {
    if n < 10 then [DigitChar(n)] else NatToString(n / 10) + [DigitChar(n % 10)]
  }

  /** The number a string of decimal digits denotes. */
  function DigitsValue(s: string): nat
    requires AllDigits(s)
  {
    if s == [] then 0 else DigitsValue(s[..|s| - 1]) * 10 + (s[|s| - 1] as int - '0' as int)
  }

  /** The numeral `String(n)` denotes `n` again. */
  lemma {:induction false} NatToStringValue(n: nat)
    ensures DigitsValue(NatToString(n)) == n
    decreases n
  {
    if n >= 10 {
      var s := NatToString(n);
      assert s[..|s| - 1] == NatToString(n / 10);
      NatToStringValue(n / 10);
    }
  }

  /** Distinct numbers get distinct numerals. */
  lemma NatToStringInjective(m: nat, n: nat)
    requires NatToString(m) == NatToString(n)
    ensures m == n
  {
    NatToStringValue(m);
    NatToStringValue(n);
  }

  /** The white space `parseInt` skips before the number (the common ones). */
  predicate IsSpace(c: char)
  {
    c == ' ' || c == '\t' || c == '\n' || c == '\r' || c == '\U{B}' || c == '\U{C}'
    || c == '\U{A0}' || c == '\U{FEFF}'
  }

  /** `s` without its leading white space. */
  function TrimStart(s: string): (t: string)
    ensures |t| <= |s| && t == s[|s| - |t|..]
    ensures t == [] || !IsSpace(t[0])
    ensures s != [] && !IsSpace(s[0]) ==> t == s
  {
    if s != [] && IsSpace(s[0]) then TrimStart(s[1..]) else s
  }

  /** The longest prefix of `s` made of decimal digits. */
  function DigitRun(s: string): (d: string)
    ensures AllDigits(d) && |d| <= |s| && d == s[..|d|]
    ensures |d| < |s| ==> !IsDigit(s[|d|])
  {
    if s != [] && IsDigit(s[0]) then [s[0]] + DigitRun(s[1..]) else []
  }

  predicate IsHexDigit(c: char) { IsDigit(c) || 'a' <= c <= 'f' || 'A' <= c <= 'F' }

  predicate AllHexDigits(s: string) { forall i :: 0 <= i < |s| ==> IsHexDigit(s[i]) }

  function HexDigitValue(c: char): (v: nat)
    requires IsHexDigit(c)
    ensures v < 16
  {
    if IsDigit(c) then c as int - '0' as int
    else if 'a' <= c <= 'f' then c as int - 'a' as int + 10
    else c as int - 'A' as int + 10
  }

  /** The longest prefix of `s` made of hexadecimal digits. */
  function HexRun(s: string): (h: string)
    ensures AllHexDigits(h) && |h| <= |s| && h == s[..|h|]
    ensures |h| < |s| ==> !IsHexDigit(s[|h|])
  {
    if s != [] && IsHexDigit(s[0]) then [s[0]] + HexRun(s[1..]) else []
  }

  function HexValue(s: string): nat
    requires AllHexDigits(s)
  {
    if s == [] then 0 else HexValue(s[..|s| - 1]) * 16 + HexDigitValue(s[|s| - 1])
  }

  /**
   * JavaScript's `parseInt(s)` without a radix: leading white space is
   * skipped, one sign is read, a `0x`/`0X` prefix selects base 16, and the
   * longest run of digits that follows is the value; trailing characters are
   * ignored. `None` stands for `NaN` (no digit at all).
   */
  function ParseInt(s: string): (r: Option<int>)
    ensures s == [] ==> r == None
  {
    var t := TrimStart(s);
    var signed := |t| > 0 && (t[0] == '-' || t[0] == '+');
    var m := ParseMagnitude(if signed then t[1..] else t);
    if m.None? then None
    else
      var magnitude: int := m.value;
      Some(if signed && t[0] == '-' then -magnitude else magnitude)
  }

  /** The unsigned part: hexadecimal digits after `0x`/`0X`, else decimal digits. */
  function ParseMagnitude(u: string): (m: Option<nat>)
    ensures u == [] ==> m == None
  {
    if |u| >= 2 && u[0] == '0' && (u[1] == 'x' || u[1] == 'X') then
      var h := HexRun(u[2..]);
      if h == [] then None else Some(HexValue(h))
    else
      var d := DigitRun(u);
      if d == [] then None else Some(DigitsValue(d))
  }

  /** Without a single decimal digit `parseInt` gives `NaN`. */
  lemma ParseIntWithoutDigits(s: string)
    requires forall i :: 0 <= i < |s| ==> !IsDigit(s[i])
    ensures ParseInt(s) == None
  {
    var t := TrimStart(s);
    var signed := |t| > 0 && (t[0] == '-' || t[0] == '+');
    var u := if signed then t[1..] else t;
    assert u == s[|s| - |u|..];
    if |u| > 0 {
      assert u[0] == s[|s| - |u|];
      assert !IsDigit(u[0]);
    }
    assert DigitRun(u) == [];
  }

  /** On a plain decimal numeral `parseInt` reads exactly its value. */
  lemma ParseIntOfDigits(s: string)
    requires s != [] && AllDigits(s)
    ensures ParseInt(s) == Some(DigitsValue(s))
  {
    assert |s| >= 2 ==> IsDigit(s[1]);
    DigitRunStops(s, []);
    assert s + [] == s;
    ParseIntDecimal(s);
  }

  /** A digit run stops exactly where the digits end. */
  lemma {:induction false} DigitRunStops(d: string, tail: string)
    requires AllDigits(d)
    requires tail == [] || !IsDigit(tail[0])
    ensures DigitRun(d + tail) == d
    decreases |d|
  {
    if d != [] {
      assert (d + tail)[1..] == d[1..] + tail;
      DigitRunStops(d[1..], tail);
    } else {
      assert d + tail == tail;
    }
  }

  /**
   * `parseInt` reads a numeral without leading zeros followed by text back as
   * its value, when the text starts with neither a digit nor the `x` of a
   * hexadecimal prefix.
   */
  lemma ParseIntOfDigitsThen(d: string, tail: string)
    requires d != [] && AllDigits(d) && (d[0] != '0' || |d| == 1)
    requires tail == [] || (!IsDigit(tail[0]) && tail[0] != 'x' && tail[0] != 'X')
    ensures ParseInt(d + tail) == Some(DigitsValue(d))
  {
    var s := d + tail;
    assert s[0] == d[0];
    if |s| >= 2 && s[0] == '0' {
      assert s[1] == tail[0];
    }
    DigitRunStops(d, tail);
    ParseIntDecimal(s);
  }

  /** A string starting with a digit and no `0x` prefix is read as its leading digit run. */
  lemma ParseIntDecimal(s: string)
    requires s != [] && IsDigit(s[0])
    requires !(|s| >= 2 && s[0] == '0' && (s[1] == 'x' || s[1] == 'X'))
    ensures DigitRun(s) != []
    ensures ParseInt(s) == Some(DigitsValue(DigitRun(s)))
  {
    var d := DigitRun(s);
    assert d != [];
    assert ParseMagnitude(s) == Some(DigitsValue(d));
    assert !IsSpace(s[0]);
    assert TrimStart(s) == s;
    assert !(s[0] == '-' || s[0] == '+');
  }

  /** The same for the decimal text of a natural number. */
  lemma ParseIntOfNumeralThen(n: nat, tail: string)
    requires tail == [] || (!IsDigit(tail[0]) && tail[0] != 'x' && tail[0] != 'X')
    ensures ParseInt(NatToString(n) + tail) == Some(n)
  {
    var d := NatToString(n);
    assert d[0] == '0' ==> d == "0";
    ParseIntOfDigitsThen(d, tail);
    NatToStringValue(n);
  }

  /** `parseInt(String(n)) == n`: the id round trip of the flight form. */
  lemma ParseIntOfString(n: nat)
    ensures ParseInt(NatToString(n)) == Some(n)
  {
    ParseIntOfDigits(NatToString(n));
    NatToStringValue(n);
  }
}
