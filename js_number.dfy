/** The two JavaScript number conversions the bill-number sequencer relies on:
    `parseInt(s)` with no radix (ECMAScript section 19.2.5) and `String(n)`
    for integral numbers. A Number that is NaN is `None`. */
module JsNumber {
  import opened Common

  /** The characters `parseInt` skips at the front: ECMAScript WhiteSpace
      (including every Unicode space separator) and LineTerminator. */
  predicate IsJsSpace(c: char)
  {
    c == '\t' || c == '\n' || c == '\U{B}' || c == '\U{C}' || c == '\r' ||
    c == ' ' || c == '\U{A0}' || c == '\U{1680}' || ('\U{2000}' <= c <= '\U{200A}') ||
    c == '\U{2028}' || c == '\U{2029}' || c == '\U{202F}' || c == '\U{205F}' ||
    c == '\U{3000}' || c == '\U{FEFF}'
  }

  /** The string with its leading JavaScript whitespace removed. */
  function TrimStart(s: string): (r: string)
    ensures |r| <= |s| && r == s[|s| - |r|..]
    ensures forall k :: 0 <= k < |s| - |r| ==> IsJsSpace(s[k])
    ensures r == [] || !IsJsSpace(r[0])
  {
    if s == [] || !IsJsSpace(s[0]) then s else TrimStart(s[1..])
  }

  /** The value of `c` as a digit in base `radix` (10 or 16), if it is one. */
  function DigitValue(c: char, radix: nat): (r: Option<nat>)
    requires radix == 10 || radix == 16
    ensures r.Some? ==> r.value < radix
  {
    if '0' <= c <= '9' then Some(c as nat - '0' as nat)
    else if radix == 16 && 'a' <= c <= 'f' then Some(c as nat - 'a' as nat + 10)
    else if radix == 16 && 'A' <= c <= 'F' then Some(c as nat - 'A' as nat + 10)
    else None
  }

  predicate AllDigits(s: string, radix: nat)
    requires radix == 10 || radix == 16
  {
    forall k :: 0 <= k < |s| ==> DigitValue(s[k], radix).Some?
  }

  /** The length of the longest prefix of `s` made of base-`radix` digits. */
  function DigitRun(s: string, radix: nat): (n: nat)
    requires radix == 10 || radix == 16
    ensures n <= |s| && AllDigits(s[..n], radix)
    ensures n < |s| ==> DigitValue(s[n], radix).None?
  {
    if s == [] || DigitValue(s[0], radix).None? then 0
    else
      var n := 1 + DigitRun(s[1..], radix);
      assert s[..n] == [s[0]] + s[1..][..n - 1];
      n
  }

  /** The number a string of base-`radix` digits denotes, most significant first. */
  function ValueOf(s: string, radix: nat): nat
    requires radix == 10 || radix == 16
    requires AllDigits(s, radix)
  {
    if s == [] then 0
    else ValueOf(s[..|s| - 1], radix) * radix + DigitValue(s[|s| - 1], radix).value
  }

  /** The unsigned part of `parseInt`: an optional `0x`/`0X` prefix switches
      to base 16, then the longest run of digits is read; no digit gives NaN. */
  function ParseUnsigned(u: string): (r: Option<nat>)
  {
    var hex := |u| >= 2 && u[0] == '0' && (u[1] == 'x' || u[1] == 'X');
    var radix := if hex then 16 else 10;
    var digits := if hex then u[2..] else u;
    var n := DigitRun(digits, radix);
    if n == 0 then None else Some(ValueOf(digits[..n], radix))
  }

  /** `parseInt(s)`: skip leading whitespace, read an optional sign, then the
      unsigned part. */
  function ParseInt(s: string): (r: int_or_nan)
  {
    var t := TrimStart(s);
    var negative := |t| > 0 && t[0] == '-';
    var u := if |t| > 0 && (t[0] == '-' || t[0] == '+') then t[1..] else t;
    match ParseUnsigned(u)
    case None => None
    case Some(m) => var v: int := m; Some(if negative then -v else v)
  }

  type int_or_nan = Option<int>

  function DecimalDigit(d: nat): (c: char)
    requires d < 10
    ensures '0' <= c <= '9' && DigitValue(c, 10) == Some(d)
  {
    ('0' as nat + d) as char
  }

  /** `String(n)` for a non-negative integer: decimal, no leading zeros. */
  function ShowNat(n: nat): (r: string)
    ensures |r| >= 1 && AllDigits(r, 10)
    ensures r[0] == '0' ==> n == 0 && r == "0"
  {
    if n < 10 then [DecimalDigit(n)]
    else ShowNat(n / 10) + [DecimalDigit(n % 10)]
  }

  /** `String(n)` for an integer: a minus sign before the digits of a negative one. */
  function ShowInt(i: int): (r: string)
    ensures |r| >= 1
  {
    if i < 0 then "-" + ShowNat(-i) else ShowNat(i)
  }

  /** `String(x)` for a Number that is an integer or NaN. */
  function NumberToString(x: int_or_nan): (r: string)
    ensures r == "NaN" <==> x.None?
  {
    match x
    case None => "NaN"
    case Some(i) => assert '0' <= ShowInt(i)[0] <= '9' || ShowInt(i)[0] == '-'; ShowInt(i)
  }

  /** Reading back the digits `ShowNat` writes gives the number again. */
  lemma {:induction false} ValueOfShowNat(n: nat)
    ensures ValueOf(ShowNat(n), 10) == n
  {
    var s := ShowNat(n);
    if n >= 10 {
      assert s[..|s| - 1] == ShowNat(n / 10);
      ValueOfShowNat(n / 10);
    }
  }

  /** The digits `ShowNat` writes are read back, unsigned, as the number. */
  lemma ParseUnsignedShowNat(n: nat)
    ensures ParseUnsigned(ShowNat(n)) == Some(n)
  {
    var s := ShowNat(n);
    assert s[0] == '0' ==> |s| == 1;
    DigitRunOfDigits(s, 10);
    assert s[..|s|] == s;
    ValueOfShowNat(n);
  }

  /** `parseInt(String(n)) == n` for every non-negative integer. */
  lemma ParseShowNat(n: nat)
    ensures ParseInt(ShowNat(n)) == Some(n)
  {
    var s := ShowNat(n);
    assert DigitValue(s[0], 10).Some?;
    assert !IsJsSpace(s[0]) && s[0] != '-' && s[0] != '+';
    assert TrimStart(s) == s;
    ParseUnsignedShowNat(n);
  }

  /** `parseInt(String(i)) == i` for every integer, negative ones included. */
  lemma ParseShowInt(i: int)
    ensures ParseInt(ShowInt(i)) == Some(i)
  {
    if i >= 0 {
      ParseShowNat(i);
    } else {
      var t := "-" + ShowNat(-i);
      assert TrimStart(t) == t;
      assert t[1..] == ShowNat(-i);
      ParseUnsignedShowNat(-i);
    }
  }

  /** On a string made only of digits the run of digits is the whole string. */
  lemma {:induction false} DigitRunOfDigits(s: string, radix: nat)
    requires radix == 10 || radix == 16
    requires AllDigits(s, radix)
    ensures DigitRun(s, radix) == |s|
  {
    if s != [] {
      DigitRunOfDigits(s[1..], radix);
    }
  }
}
