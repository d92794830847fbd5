/**
 * Decimal numerals as JavaScript writes and reads them: the template-literal
 * rendering of a non-negative integer, and `parseInt(s, 10)` as section
 * 19.2.5 of ECMA-262 defines it.
 */
module JsNumber {
  import opened JsText

  predicate IsDigit(c: char)
  {
    '0' <= c <= '9'
  }

  function DigitChar(d: nat): (c: char)
    requires d < 10
    ensures IsDigit(c)
  {
    ('0' as int + d) as char
  }

  function DigitValue(c: char): (d: nat)
    requires IsDigit(c)
    ensures d < 10
  {
    c as int - '0' as int
  }

  /** `${n}` for a non-negative integer: its shortest decimal numeral. */
  function Decimal(n: nat): (r: string)
    ensures |r| >= 1
    ensures forall i :: 0 <= i < |r| ==> IsDigit(r[i])
  {
    if n < 10 then [DigitChar(n)] else Decimal(n / 10) + [DigitChar(n % 10)]
  }

  /** The value of a numeral, most significant digit first. */
  function NumeralValue(s: string): nat
    requires forall i :: 0 <= i < |s| ==> IsDigit(s[i])
  {
    if s == [] then 0 else 10 * NumeralValue(s[..|s| - 1]) + DigitValue(s[|s| - 1])
  }

  /** The longest prefix of `s` made of decimal digits. */
  function DigitPrefix(s: string): (r: string)
    ensures |r| <= |s| && r == s[..|r|]
    ensures forall i :: 0 <= i < |r| ==> IsDigit(r[i])
    ensures |r| < |s| ==> !IsDigit(s[|r|])
  {
    if s != [] && IsDigit(s[0]) then [s[0]] + DigitPrefix(s[1..]) else []
  }

  /** What `parseInt` returns: a number or NaN. */
  datatype Parsed = NaN | Num(value: int)

  /**
   * `parseInt(s, 10)`: skip leading white space, take one optional sign,
   * then the longest run of decimal digits; no digits gives NaN.
   */
  function ParseInt(s: string): Parsed
  {
    var t := TrimStart(s);
    var negative := t != [] && t[0] == '-';
    var body := if t != [] && (t[0] == '-' || t[0] == '+') then t[1..] else t;
    var digits := DigitPrefix(body);
    if digits == [] then NaN
    else
      var v: int := NumeralValue(digits);
      Num(if negative then -v else v)
  }

  /** Reading back the numeral written for `n` gives `n`. */
  lemma {:induction false} NumeralOfDecimal(n: nat)
    ensures NumeralValue(Decimal(n)) == n
  {
    if n >= 10 {
      NumeralOfDecimal(n / 10);
      var d := Decimal(n);
      assert d[..|d| - 1] == Decimal(n / 10);
    }
  }

  /** A run of digits followed by anything that does not start with a digit is the longest digit prefix. */
  lemma {:induction false} DigitPrefixOfNumeral(d: string, rest: string)
    requires forall i :: 0 <= i < |d| ==> IsDigit(d[i])
    requires rest == [] || !IsDigit(rest[0])
    ensures DigitPrefix(d + rest) == d
  {
    if d != [] {
      assert (d + rest)[1..] == d[1..] + rest;
      DigitPrefixOfNumeral(d[1..], rest);
    } else {
      assert d + rest == rest;
    }
  }

  /**
   * `parseInt` reads back what the template literal writes, whatever follows
   * that is not a digit ignored: `parseInt("12abc")` and `parseInt("12.7")`
   * are both 12.
   */
  lemma ParseIntOfDecimal(n: nat, rest: string)
    requires rest == [] || !IsDigit(rest[0])
    ensures ParseInt(Decimal(n) + rest) == Num(n)
  {
    var s := Decimal(n) + rest;
    DigitPrefixOfNumeral(Decimal(n), rest);
    NumeralOfDecimal(n);
    assert !IsJsSpace(s[0]);
  }

  /** The same with a leading minus sign: `parseInt("-5")` is -5. */
  lemma ParseIntOfNegativeDecimal(n: nat, rest: string)
    requires rest == [] || !IsDigit(rest[0])
    ensures ParseInt("-" + Decimal(n) + rest) == Num(-(n as int))
  {
    var body := Decimal(n) + rest;
    var s := "-" + Decimal(n) + rest;
    assert s == "-" + body;
    DigitPrefixOfNumeral(Decimal(n), rest);
    NumeralOfDecimal(n);
    assert !IsJsSpace(s[0]);
    assert TrimStart(s) == s;
    assert s[1..] == body;
  }

  /** Leading white space does not change what `parseInt` reads. */
  lemma ParseIntSkipsSpace(ws: string, s: string)
    requires forall i :: 0 <= i < |ws| ==> IsJsSpace(ws[i])
    ensures ParseInt(ws + s) == ParseInt(s)
  {
    TrimStartOfSpace(ws, s);
  }

  /** A string with no digit after the optional white space and sign is NaN. */
  lemma ParseIntNoDigits(s: string)
    requires forall i :: 0 <= i < |s| ==> !IsDigit(s[i])
    ensures ParseInt(s) == NaN
  {
  }
}
