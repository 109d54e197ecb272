/**
  * The two JavaScript number conversions the forms rely on: the global
  * `parseInt(string)` with no radix argument (ECMAScript, section 19.2.5 of
  * ECMA-262), and `Number.prototype.toString()` on an integer. A NaN result of
  * `parseInt` is `None`. Numbers are unbounded integers here.
  */
module JsNumbers {
  import opened Wrappers

  /** The characters `parseInt` skips before the number (WhiteSpace and LineTerminator). */
  const WhiteSpaceChars: set<char> := {
    ' ', '\t', '\n', '\r', '\U{0B}', '\U{0C}', '\U{A0}', '\U{FEFF}', '\U{1680}',
    '\U{2000}', '\U{2001}', '\U{2002}', '\U{2003}', '\U{2004}', '\U{2005}', '\U{2006}',
    '\U{2007}', '\U{2008}', '\U{2009}', '\U{200A}',
    '\U{2028}', '\U{2029}', '\U{202F}', '\U{205F}', '\U{3000}'}

  predicate IsWhiteSpace(c: char) {
    c in WhiteSpaceChars
  }

  /** The value of `c` as a digit in any radix up to 36 (letters in either case). */
  function DigitVal(c: char): Option<nat> {
    if '0' <= c <= '9' then Some(c as int - '0' as int)
    else if 'a' <= c <= 'z' then Some(c as int - 'a' as int + 10)
    else if 'A' <= c <= 'Z' then Some(c as int - 'A' as int + 10)
    else None
  }

  predicate IsDigit(c: char, radix: nat) {
    DigitVal(c).Some? && DigitVal(c).value < radix
  }

  /** The decimal digit character for `d`. */
  function DigitChar(d: nat): (c: char)
    requires d < 10
    ensures IsDigit(c, 10) && DigitVal(c) == Some(d)
  {
    ('0' as int + d) as char
  }

  /** What is left of `s` after its leading white space. */
  function TrimStart(s: string): (r: string)
    ensures r == [] || !IsWhiteSpace(r[0])
  {
    if s != [] && IsWhiteSpace(s[0]) then TrimStart(s[1..]) else s
  }

  /** Trimming drops only a prefix of `s`, and that prefix is all white space. */
  lemma {:induction false} TrimStartIsSuffix(s: string)
    ensures |TrimStart(s)| <= |s|
    ensures TrimStart(s) == s[|s| - |TrimStart(s)|..]
    ensures forall j :: 0 <= j < |s| - |TrimStart(s)| ==> IsWhiteSpace(s[j])
  {
    if s != [] && IsWhiteSpace(s[0]) {
      TrimStartIsSuffix(s[1..]);
      assert s[1..][|s| - 1 - |TrimStart(s)|..] == s[|s| - |TrimStart(s)|..];
    }
  }

  /** The length of the longest prefix of `s` made of `radix` digits. */
  function DigitPrefix(s: string, radix: nat): (n: nat)
    ensures n <= |s|
    ensures forall j :: 0 <= j < n ==> IsDigit(s[j], radix)
    ensures n < |s| ==> !IsDigit(s[n], radix)
  {
    if s != [] && IsDigit(s[0], radix) then 1 + DigitPrefix(s[1..], radix) else 0
  }

  /** The value of a string of `radix` digits, most significant first. */
  function DigitsValue(ds: string, radix: nat): nat
    requires forall j :: 0 <= j < |ds| ==> IsDigit(ds[j], radix)
  {
    if ds == [] then 0
    else
      var init, last := ds[..|ds| - 1], ds[|ds| - 1];
      assert IsDigit(last, radix);
      assert forall j :: 0 <= j < |init| ==> init[j] == ds[j];
      var high := DigitsValue(init, radix);
      MulNonNegative(high, radix);
      high * radix + DigitVal(last).value
  }

  lemma MulNonNegative(a: nat, b: nat)
    ensures a * b >= 0
  {
  }

  /** True when `u` starts with the `0x` or `0X` prefix of a hexadecimal number. */
  predicate HasHexPrefix(u: string) {
    |u| >= 2 && u[0] == '0' && (u[1] == 'x' || u[1] == 'X')
  }

  /** The unsigned part of `parseInt`: an optional hex prefix, then the longest run of digits. */
  function ParseMagnitude(u: string): (r: Option<nat>)
    ensures r.Some? ==> u != [] && IsDigit(u[0], 10)
  {
    var radix := if HasHexPrefix(u) then 16 else 10;
    var v := if HasHexPrefix(u) then u[2..] else u;
    var n := DigitPrefix(v, radix);
    if n == 0 then None else Some(DigitsValue(v[..n], radix))
  }

  /** `parseInt` after the white space: one optional sign, then the magnitude. */
  function ParseSigned(t: string): (r: Option<int>)
    ensures r.Some? ==> exists j :: 0 <= j < |t| && IsDigit(t[j], 10)
  {
    if t != [] && (t[0] == '-' || t[0] == '+') then
      match ParseMagnitude(t[1..])
      case None => None
      case Some(m) => Some(if t[0] == '-' then 0 - m else m)
    else
      match ParseMagnitude(t)
      case None => None
      case Some(m) => Some(m)
  }

  /**
    * `parseInt(s)`: skip leading white space, take one optional sign, a `0x`
    * or `0X` prefix switches to radix 16, then read the longest run of digits
    * and ignore the rest. No digit at all gives NaN (`None`); `-0` is 0.
    */
  function ParseInt(s: string): (r: Option<int>)
    ensures r.Some? ==> exists j :: 0 <= j < |s| && IsDigit(s[j], 10)
  {
    TrimStartIsSuffix(s);
    ParseSigned(TrimStart(s))
  }

  /** Decimal digits of `n` with no leading zero. */
  function NatToString(n: nat): (r: string)
    ensures |r| >= 1
    ensures forall j :: 0 <= j < |r| ==> IsDigit(r[j], 10)
    ensures r[0] == '0' ==> n == 0
  {
    if n < 10 then [DigitChar(n)] else NatToString(n / 10) + [DigitChar(n % 10)]
  }

  /** `n.toString()` for an integer `n`. */
  function IntToString(n: int): (r: string)
    ensures |r| >= 1
    ensures n < 0 ==> r[0] == '-' && forall j :: 1 <= j < |r| ==> IsDigit(r[j], 10)
    ensures n >= 0 ==> forall j :: 0 <= j < |r| ==> IsDigit(r[j], 10)
  {
    if n < 0 then "-" + NatToString(-n) else NatToString(n)
  }

  lemma {:induction false} DigitsOfNatToString(n: nat)
    ensures DigitsValue(NatToString(n), 10) == n
  {
    var r := NatToString(n);
    if n >= 10 {
      DigitsOfNatToString(n / 10);
      assert r[..|r| - 1] == NatToString(n / 10);
    }
  }

  lemma {:induction false} DigitPrefixAll(s: string, rest: string, radix: nat)
    requires forall j :: 0 <= j < |s| ==> IsDigit(s[j], radix)
    requires rest == [] || !IsDigit(rest[0], radix)
    ensures DigitPrefix(s + rest, radix) == |s|
  {
    if s != [] {
      assert (s + rest)[1..] == s[1..] + rest;
      DigitPrefixAll(s[1..], rest, radix);
    }
  }

  /** The magnitude read from a run of decimal digits that is not a hex prefix. */
  lemma ParseMagnitudeOfDigits(ds: string, rest: string)
    requires |ds| >= 1 && forall j :: 0 <= j < |ds| ==> IsDigit(ds[j], 10)
    requires rest == [] || !IsDigit(rest[0], 10)
    requires !HasHexPrefix(ds + rest)
    ensures ParseMagnitude(ds + rest) == Some(DigitsValue(ds, 10))
  {
    DigitPrefixAll(ds, rest, 10);
    assert (ds + rest)[..|ds|] == ds;
  }

  /** A string that starts with a digit is read as a magnitude. */
  lemma ParseIntOfUnsigned(u: string, m: nat)
    requires u != [] && IsDigit(u[0], 10)
    requires ParseMagnitude(u) == Some(m)
    ensures ParseInt(u) == Some(m)
  {
    assert !IsWhiteSpace(u[0]);
  }

  /** A minus sign in front of a magnitude negates it. */
  lemma ParseIntOfNegated(u: string, m: nat)
    requires u != [] && IsDigit(u[0], 10)
    requires ParseMagnitude(u) == Some(m)
    ensures ParseInt("-" + u) == Some(0 - m)
  {
    var s := "-" + u;
    assert !IsWhiteSpace(s[0]);
    assert TrimStart(s) == s;
    assert s[1..] == u;
  }

  /** The decimal digits of `n` followed by `rest` read back as the magnitude `n`. */
  lemma ParseMagnitudeOfNatToString(a: nat, rest: string)
    requires rest == [] || !IsDigit(rest[0], 10)
    requires a == 0 ==> rest == [] || (rest[0] != 'x' && rest[0] != 'X')
    ensures ParseMagnitude(NatToString(a) + rest) == Some(a)
  {
    var ds := NatToString(a);
    var u := ds + rest;
    assert !HasHexPrefix(u);
    ParseMagnitudeOfDigits(ds, rest);
    DigitsOfNatToString(a);
  }

  lemma ParseIntOfNonNegative(n: nat, rest: string)
    requires rest == [] || !IsDigit(rest[0], 10)
    requires n == 0 ==> rest == [] || (rest[0] != 'x' && rest[0] != 'X')
    ensures ParseInt(IntToString(n) + rest) == Some(n)
  {
    var u := NatToString(n) + rest;
    ParseMagnitudeOfNatToString(n, rest);
    ParseIntOfUnsigned(u, n);
    assert IntToString(n) + rest == u;
  }

  lemma ParseIntOfNegative(n: int, rest: string)
    requires n < 0
    requires rest == [] || !IsDigit(rest[0], 10)
    ensures ParseInt(IntToString(n) + rest) == Some(n)
  {
    var d := NatToString(-n);
    var u := d + rest;
    ConcatAssoc("-", d, rest);
    assert IntToString(n) + rest == "-" + u;
    ParseMagnitudeOfNatToString(-n, rest);
    ParseIntOfNegated(u, -n);
  }

  lemma ConcatAssoc(a: string, b: string, c: string)
    ensures (a + b) + c == a + (b + c)
  {
  }

  /**
    * Reading back what `toString` wrote: `parseInt` of the decimal form of `n`
    * followed by anything that does not continue the number gives `n`. The
    * one trap is `0` followed by `x`, which `parseInt` takes for a hex prefix.
    */
  lemma ParseIntOfIntToString(n: int, rest: string)
    requires rest == [] || !IsDigit(rest[0], 10)
    requires n == 0 ==> rest == [] || (rest[0] != 'x' && rest[0] != 'X')
    ensures ParseInt(IntToString(n) + rest) == Some(n)
  {
    if n < 0 {
      ParseIntOfNegative(n, rest);
    } else {
      ParseIntOfNonNegative(n, rest);
    }
  }

  /** The plain round trip: `parseInt(n.toString()) == n`. */
  lemma ParseIntRoundTrip(n: int)
    ensures ParseInt(IntToString(n)) == Some(n)
  {
    ParseIntOfIntToString(n, []);
    assert IntToString(n) + [] == IntToString(n);
  }

  /**
    * A string without a decimal digit parses to NaN: letters, hexadecimal ones
    * included, never start a number, since a hex prefix needs its leading `0`.
    */
  lemma ParseIntNaN(s: string)
    requires forall j :: 0 <= j < |s| ==> !IsDigit(s[j], 10)
    ensures ParseInt(s) == None
  {
  }
}
