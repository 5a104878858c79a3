/**
  A model of the number syntax the operator console relies on: the
  `parseInt(string)` call that reads the typed value (with no radix
  argument, as ECMAScript's `parseInt` is used there) and the decimal
  rendering `{num}` of a drawn number.
 */
module Decimal {
  import opened Wrappers

  /** The white-space characters parseInt skips before the number:
      ECMAScript's ASCII white space, NBSP, the byte order mark and the line
      terminators. The other space separators (U+1680, U+2000 to U+200A,
      U+202F, U+205F, U+3000) are not modelled. */
  predicate IsSpace(c: char) {
    c == ' ' || c == '\t' || c == '\n' || c == '\r' || c == '\U{0B}' || c == '\U{0C}'
    || c == '\U{A0}' || c == '\U{FEFF}' || c == '\U{2028}' || c == '\U{2029}'
  }

  /** The value of a digit character in any radix up to 36: `0-9`, then `a-z` or `A-Z`. */
  function DigitValue(c: char): (r: Option<nat>)
    ensures r.Some? ==> r.value < 36
    ensures ('0' <= c <= '9') == (r.Some? && r.value < 10)
  {
    if '0' <= c <= '9' then Some(c as int - '0' as int)
    else if 'a' <= c <= 'z' then Some(c as int - 'a' as int + 10)
    else if 'A' <= c <= 'Z' then Some(c as int - 'A' as int + 10)
    else None
  }

  predicate IsDigitIn(c: char, radix: nat) {
    DigitValue(c).Some? && DigitValue(c).value < radix
  }

  predicate AllDigitsIn(d: string, radix: nat) {
    forall i :: 0 <= i < |d| ==> IsDigitIn(d[i], radix)
  }

  /** `s` without its leading white space. */
  function TrimStart(s: string): (r: string)
    ensures |r| <= |s| && r == s[|s| - |r|..]
    ensures forall i :: 0 <= i < |s| - |r| ==> IsSpace(s[i])
    ensures r == [] || !IsSpace(r[0])
  {
    if s != [] && IsSpace(s[0]) then TrimStart(s[1..]) else s
  }

  /** The length of the longest prefix of `s` made of digits of `radix`. */
  function DigitRun(s: string, radix: nat): (r: nat)
    ensures r <= |s|
    ensures AllDigitsIn(s[..r], radix)
    ensures r == |s| || !IsDigitIn(s[r], radix)
  {
    if s != [] && IsDigitIn(s[0], radix) then 1 + DigitRun(s[1..], radix) else 0
  }

  /** The value of a string of digits, most significant first. */
  function DigitsValue(d: string, radix: nat): nat
    requires AllDigitsIn(d, radix)
  {
    if d == [] then 0
    else DigitsValue(d[..|d| - 1], radix) * radix + DigitValue(d[|d| - 1]).value
  }

  /** ECMAScript `parseInt(s)` with no radix argument, as a partial function:
      skip leading white space, read an optional sign, read a `0x`/`0X`
      prefix as radix 16 (otherwise radix 10), then take the longest run of
      digits; `None` (NaN) when that run is empty. Anything after the run is
      ignored, so `parseInt("12abc")` and `parseInt("1.5")` read 12 and 1. */
  function ParseInt(s: string): (r: Option<int>)
    ensures TrimStart(s) == [] ==> r.None?
    ensures r.Some? && r.value < 0 ==> TrimStart(s) != [] && TrimStart(s)[0] == '-'
  {
    ParseSigned(TrimStart(s))
  }

  /** An optional sign, then an unsigned number. */
  function ParseSigned(t: string): (r: Option<int>)
    ensures t == [] ==> r.None?
    ensures r.Some? && r.value < 0 ==> t[0] == '-'
    ensures t != [] && t[0] == '-' && r.Some? ==> r.value <= 0
    ensures t != [] && '1' <= t[0] <= '9' ==> r.Some? && r.value >= 1
  {
    if t != [] && (t[0] == '-' || t[0] == '+') then
      match ParseUnsigned(t[1..])
      case None => None
      case Some(m) => Some(if t[0] == '-' then -(m as int) else m)
    else
      match ParseUnsigned(t)
      case None => None
      case Some(m) => Some(m)
  }

  /** An optional `0x`/`0X` prefix selecting radix 16, then the digit run. */
  function ParseUnsigned(u: string): (r: Option<nat>)
    ensures u == [] || !IsDigitIn(u[0], 10) ==> r.None?
    ensures u != [] && '1' <= u[0] <= '9' ==> r.Some? && r.value >= 1
  {
    var hex := |u| >= 2 && u[0] == '0' && (u[1] == 'x' || u[1] == 'X');
    var radix := if hex then 16 else 10;
    var w := if hex then u[2..] else u;
    var k := DigitRun(w, radix);
    if k == 0 then None
    else
      LeadingDigitValue(w[..k], radix);
      Some(DigitsValue(w[..k], radix))
  }

  /** A digit string whose first digit is not zero has a positive value. */
  lemma {:induction false} LeadingDigitValue(d: string, radix: nat)
    requires radix >= 1 && d != [] && AllDigitsIn(d, radix)
    ensures DigitValue(d[0]).value >= 1 ==> DigitsValue(d, radix) >= 1
  {
    if |d| > 1 {
      var init := d[..|d| - 1];
      assert init[0] == d[0];
      LeadingDigitValue(init, radix);
    }
  }

  function DecimalChar(d: nat): (c: char)
    requires d < 10
    ensures DigitValue(c) == Some(d)
  {
    (('0' as int) + d) as char
  }

  /** The decimal rendering of a natural number: no sign, no leading zeros. */
  function ToDecimal(n: nat): (r: string)
    ensures |r| >= 1 && AllDigitsIn(r, 10)
    ensures r[0] == '0' <==> n == 0
    decreases n
  {
    if n < 10 then [DecimalChar(n)] else ToDecimal(n / 10) + [DecimalChar(n % 10)]
  }

  /** Reading back a rendering gives the number it renders. */
  lemma {:induction false} DigitsValueOfToDecimal(n: nat)
    ensures DigitsValue(ToDecimal(n), 10) == n
    decreases n
  {
    if n >= 10 {
      var t := ToDecimal(n / 10);
      var d := ToDecimal(n);
      assert d[..|d| - 1] == t;
      DigitsValueOfToDecimal(n / 10);
    }
  }

  /** `parseInt` reads a rendered number back, whatever non-digit text
      follows it, except that `0` followed by `x` or `X` starts a
      hexadecimal literal. */
  lemma ParseIntOfToDecimal(n: nat, rest: string)
    requires rest == [] || !IsDigitIn(rest[0], 10)
    requires n == 0 && rest != [] ==> rest[0] != 'x' && rest[0] != 'X'
    ensures ParseInt(ToDecimal(n) + rest) == Some(n)
  {
    var d := ToDecimal(n);
    var s := d + rest;
    assert s[0] == d[0];
    assert IsDigitIn(d[0], 10);
    assert !IsSpace(s[0]) && s[0] != '-' && s[0] != '+';
    assert TrimStart(s) == s;
    ParseUnsignedOfToDecimal(n, rest);
    assert ParseSigned(s) == ParseUnsigned(s);
  }

  /** A leading minus sign negates the parsed value. */
  lemma ParseIntOfNegative(n: nat)
    ensures ParseInt("-" + ToDecimal(n)) == Some(-(n as int))
  {
    var d := ToDecimal(n);
    var s := "-" + d;
    assert s[0] == '-' && !IsSpace(s[0]);
    assert TrimStart(s) == s;
    assert s[1..] == d + [];
    ParseUnsignedOfToDecimal(n, []);
    assert ParseUnsigned(s[1..]) == Some(n);
  }

  /** The unsigned part of parseInt reads a rendered number back. */
  lemma ParseUnsignedOfToDecimal(n: nat, rest: string)
    requires rest == [] || !IsDigitIn(rest[0], 10)
    requires n == 0 && rest != [] ==> rest[0] != 'x' && rest[0] != 'X'
    ensures ParseUnsigned(ToDecimal(n) + rest) == Some(n)
  {
    var d := ToDecimal(n);
    var s := d + rest;
    assert !(|s| >= 2 && s[0] == '0' && (s[1] == 'x' || s[1] == 'X')) by {
      if |s| >= 2 && s[0] == '0' {
        assert d[0] == '0';
        assert |d| == 1;
        assert s[1] == rest[0];
      }
    }
    DigitRunOfDigits(d, rest, 10);
    assert s[..|d|] == d;
    DigitsValueOfToDecimal(n);
  }

  /** Leading white space does not change what parseInt reads. */
  lemma ParseIntSkipsSpace(ws: string, s: string)
    requires forall i :: 0 <= i < |ws| ==> IsSpace(ws[i])
    ensures ParseInt(ws + s) == ParseInt(s)
  {
    TrimStartSkipsSpace(ws, s);
  }

  lemma {:induction false} TrimStartSkipsSpace(ws: string, s: string)
    requires forall i :: 0 <= i < |ws| ==> IsSpace(ws[i])
    ensures TrimStart(ws + s) == TrimStart(s)
  {
    if ws != [] {
      assert IsSpace((ws + s)[0]);
      assert (ws + s)[1..] == ws[1..] + s;
      assert TrimStart(ws + s) == TrimStart(ws[1..] + s);
      TrimStartSkipsSpace(ws[1..], s);
    } else {
      assert ws + s == s;
    }
  }

  /** The digit run of a digit string followed by a non-digit is that string. */
  lemma {:induction false} DigitRunOfDigits(d: string, rest: string, radix: nat)
    requires AllDigitsIn(d, radix)
    requires rest == [] || !IsDigitIn(rest[0], radix)
    ensures DigitRun(d + rest, radix) == |d|
  {
    if d != [] {
      assert (d + rest)[0] == d[0];
      assert (d + rest)[1..] == d[1..] + rest;
      DigitRunOfDigits(d[1..], rest, radix);
    }
  }
}
