/**
 * `encodeURIComponent` as section 19.2.6.5 of ECMA-262 defines it: every
 * character is turned into its UTF-8 bytes, and each byte that is not an
 * unreserved ASCII character is written as `%` followed by two upper-case
 * hex digits. `PercentDecode` undoes the escaping, byte by byte.
 */
module Uri {

  /** A byte, 0..255. */
  type Byte = b: int | 0 <= b < 256

  /** The characters `encodeURIComponent` leaves alone: letters, digits and `-_.!~*'()`. */
  predicate IsUnreserved(c: char)
  {
    ('a' <= c <= 'z') || ('A' <= c <= 'Z') || ('0' <= c <= '9') ||
    c == '-' || c == '_' || c == '.' || c == '!' || c == '~' || c == '*' || c == '\'' || c == '(' || c == ')'
  }

  predicate IsHexDigit(c: char)
  {
    ('0' <= c <= '9') || ('A' <= c <= 'F')
  }

  function HexDigit(d: int): (c: char)
    requires 0 <= d < 16
    ensures IsHexDigit(c)
  {
    if d < 10 then ('0' as int + d) as char else ('A' as int + d - 10) as char
  }

  function HexValue(c: char): (d: int)
    requires IsHexDigit(c)
    ensures 0 <= d < 16
  {
    if c <= '9' then c as int - '0' as int else c as int - 'A' as int + 10
  }

  lemma HexRoundTrip(d: int)
    requires 0 <= d < 16
    ensures HexValue(HexDigit(d)) == d
  {
  }

  /** The UTF-8 encoding of one Unicode scalar value (RFC 3629, section 3). */
  function Utf8(c: char): (bs: seq<Byte>)
    ensures 1 <= |bs| <= 4
  {
    var n := c as int;
    if n < 0x80 then [n]
    else if n < 0x800 then [0xC0 + n / 0x40, 0x80 + n % 0x40]
    else if n < 0x10000 then [0xE0 + n / 0x1000, 0x80 + (n / 0x40) % 0x40, 0x80 + n % 0x40]
    else [0xF0 + n / 0x40000, 0x80 + (n / 0x1000) % 0x40, 0x80 + (n / 0x40) % 0x40, 0x80 + n % 0x40]
  }

  /** The UTF-8 encoding of a string. */
  function Utf8String(s: string): (bs: seq<Byte>)
    ensures |s| <= |bs| <= 4 * |s|
  {
    if s == [] then [] else Utf8(s[0]) + Utf8String(s[1..])
  }

  /** How one byte is written. */
  function EscapeByte(b: Byte): (r: string)
    ensures |r| == 1 || |r| == 3
  {
    if b < 0x80 && IsUnreserved(b as char) then [b as char]
    else ['%', HexDigit(b / 16), HexDigit(b % 16)]
  }

  function EscapeBytes(bs: seq<Byte>): (r: string)
    ensures |bs| <= |r| <= 3 * |bs|
  {
    if bs == [] then [] else EscapeByte(bs[0]) + EscapeBytes(bs[1..])
  }

  /** `encodeURIComponent(s)`: every character becomes one to twelve characters (up to four bytes, each one character or a three-character escape). */
  function EncodeURIComponent(s: string): (r: string)
    ensures |s| <= |r| <= 12 * |s|
  {
    EscapeBytes(Utf8String(s))
  }

  /** Replaces each `%XX` escape by its byte; every other character stands for its own code. */
  function PercentDecode(t: string): seq<int>
  {
    if t == [] then []
    else if |t| >= 3 && t[0] == '%' && IsHexDigit(t[1]) && IsHexDigit(t[2]) then
      [16 * HexValue(t[1]) + HexValue(t[2])] + PercentDecode(t[3..])
    else [t[0] as int] + PercentDecode(t[1..])
  }

  lemma {:induction false} DecodeEscapedBytes(bs: seq<Byte>)
    ensures PercentDecode(EscapeBytes(bs)) == bs
  {
    if bs != [] {
      var b := bs[0];
      var e := EscapeByte(b);
      var rest := EscapeBytes(bs[1..]);
      DecodeEscapedBytes(bs[1..]);
      if |e| == 1 {
        assert (e + rest)[0] == b as char && (e + rest)[1..] == rest;
      } else {
        HexRoundTrip(b / 16);
        HexRoundTrip(b % 16);
        assert (e + rest)[3..] == rest;
      }
    }
  }

  /** Decoding the escapes of `encodeURIComponent(s)` gives back exactly the UTF-8 bytes of `s`. */
  lemma DecodeEncodeURIComponent(s: string)
    ensures PercentDecode(EncodeURIComponent(s)) == Utf8String(s)
  {
    DecodeEscapedBytes(Utf8String(s));
  }

  /** Every character of an escaped form is unreserved, `%` or a hex digit. */
  predicate IsEscapedForm(t: string)
  {
    forall i :: 0 <= i < |t| ==> IsUnreserved(t[i]) || t[i] == '%' || IsHexDigit(t[i])
  }

  lemma {:induction false} EscapedBytesForm(bs: seq<Byte>)
    ensures IsEscapedForm(EscapeBytes(bs))
  {
    if bs != [] {
      EscapedBytesForm(bs[1..]);
      var e := EscapeByte(bs[0]);
      var t := EscapeBytes(bs);
      assert t == e + EscapeBytes(bs[1..]);
      forall i | 0 <= i < |t| ensures IsUnreserved(t[i]) || t[i] == '%' || IsHexDigit(t[i]) {
        if i >= |e| {
          assert t[i] == EscapeBytes(bs[1..])[i - |e|];
        }
      }
    }
  }

  /**
   * `encodeURIComponent` never emits a character that delimits a query:
   * no `&`, `=`, `?`, `#` or space, so an encoded value stays in its slot.
   */
  lemma EncodedHasNoDelimiter(s: string)
    ensures var t := EncodeURIComponent(s);
      '&' !in t && '=' !in t && '?' !in t && '#' !in t && ' ' !in t
  {
    EscapedBytesForm(Utf8String(s));
  }

  /** `s.split(sep)`. */
  function Split(s: string, sep: char): (parts: seq<string>)
    ensures |parts| >= 1
    ensures forall i :: 0 <= i < |parts| ==> sep !in parts[i]
  {
    if s == [] then [[]]
    else if s[0] == sep then [[]] + Split(s[1..], sep)
    else var r := Split(s[1..], sep); [[s[0]] + r[0]] + r[1..]
  }

  /** Splitting `a + [sep] + b` where `a` has no separator yields `a`, then the pieces of `b`. */
  lemma {:induction false} SplitAfterField(a: string, sep: char, b: string)
    requires sep !in a
    ensures Split(a + [sep] + b, sep) == [a] + Split(b, sep)
  {
    if a == [] {
      assert a + [sep] + b == [sep] + b;
      assert ([sep] + b)[1..] == b;
    } else {
      assert (a + [sep] + b)[1..] == a[1..] + [sep] + b;
      SplitAfterField(a[1..], sep, b);
      assert [a[0]] + a[1..] == a;
    }
  }

  /** A string without the separator is one piece. */
  lemma {:induction false} SplitLastField(a: string, sep: char)
    requires sep !in a
    ensures Split(a, sep) == [a]
  {
    if a != [] {
      SplitLastField(a[1..], sep);
      assert [a[0]] + a[1..] == a;
    }
  }

  /** `fields.join(sep)` for a non-empty list of fields. */
  function JoinWith(fields: seq<string>, sep: char): string
    requires |fields| >= 1
  {
    if |fields| == 1 then fields[0] else fields[0] + [sep] + JoinWith(fields[1..], sep)
  }

  /** Splitting undoes joining when no field holds the separator. */
  lemma {:induction false} SplitJoin(fields: seq<string>, sep: char)
    requires |fields| >= 1
    requires forall i :: 0 <= i < |fields| ==> sep !in fields[i]
    ensures Split(JoinWith(fields, sep), sep) == fields
  {
    if |fields| == 1 {
      SplitLastField(fields[0], sep);
    } else {
      SplitJoin(fields[1..], sep);
      SplitAfterField(fields[0], sep, JoinWith(fields[1..], sep));
      assert [fields[0]] + fields[1..] == fields;
    }
  }

  /** A character other than the separator is in the join only if it is in some field. */
  lemma {:induction false} JoinWithAvoids(fields: seq<string>, sep: char, c: char)
    requires |fields| >= 1 && c != sep
    requires forall i :: 0 <= i < |fields| ==> c !in fields[i]
    ensures c !in JoinWith(fields, sep)
  {
    if |fields| > 1 {
      JoinWithAvoids(fields[1..], sep, c);
    }
  }
}
