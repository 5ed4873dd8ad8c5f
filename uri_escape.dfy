/**
 * `URI.escape` with its default set of unsafe characters (Ruby 2.x,
 * URI::RFC2396_Parser): every character outside the unreserved set of
 * section 2.3 of RFC 2396 and the reserved set of section 2.2 (with the
 * brackets that RFC 2732 adds) is replaced by the `%XX` escapes of its
 * UTF-8 bytes, upper-case hexadecimal, as section 2.4.1 of RFC 2396
 * describes. Reserved characters such as `/` and `@` stay literal.
 */
module UriEscape {
  import opened Ruby

  type Byte = b: int | 0 <= b < 256

  predicate IsAlphaNum(c: char) {
    'a' <= c <= 'z' || 'A' <= c <= 'Z' || '0' <= c <= '9'
  }

  /** Section 2.3 of RFC 2396. */
  predicate IsUnreserved(c: char) {
    IsAlphaNum(c) || c in "-_.!~*'()"
  }

  /** Section 2.2 of RFC 2396, with `[` and `]` from RFC 2732. */
  predicate IsReserved(c: char) {
    c in ";/?:@&=+$,[]"
  }

  /** Characters that URI.escape leaves as they are. */
  predicate IsSafe(c: char) {
    IsUnreserved(c) || IsReserved(c)
  }

  predicate IsHexDigit(c: char) {
    '0' <= c <= '9' || 'A' <= c <= 'F' || 'a' <= c <= 'f'
  }

  /** The upper-case hexadecimal digit for `d`. */
  function HexDigit(d: int): (c: char)
    requires 0 <= d < 16
    ensures IsHexDigit(c) && !('a' <= c <= 'f')
  {
    if d < 10 then ('0' as int + d) as char else ('A' as int + d - 10) as char
  }

  /** The value of a hexadecimal digit of either case. */
  function HexValue(c: char): (d: int)
    requires IsHexDigit(c)
    ensures 0 <= d < 16
  {
    if '0' <= c <= '9' then c as int - '0' as int
    else if 'A' <= c <= 'F' then c as int - 'A' as int + 10
    else c as int - 'a' as int + 10
  }

  lemma HexDigitValue(d: int)
    requires 0 <= d < 16
    ensures HexValue(HexDigit(d)) == d
  {
  }

  /** The UTF-8 encoding of one character (a Unicode scalar value). */
  function Utf8(c: char): (bs: seq<Byte>)
    ensures 1 <= |bs| <= 4
    ensures |bs| == 1 <==> (c as int) < 0x80
    ensures |bs| == 1 ==> bs[0] == c as int
  {
    var n := c as int;
    if n < 0x80 then [n]
    else if n < 0x800 then [0xC0 + n / 0x40, 0x80 + n % 0x40]
    else if n < 0x1_0000 then [0xE0 + n / 0x1000, 0x80 + n / 0x40 % 0x40, 0x80 + n % 0x40]
    else [0xF0 + n / 0x4_0000, 0x80 + n / 0x1000 % 0x40, 0x80 + n / 0x40 % 0x40, 0x80 + n % 0x40]
  }

  /** The UTF-8 encoding of a string. */
  function Utf8String(s: string): seq<Byte> {
    if s == [] then [] else Utf8(s[0]) + Utf8String(s[1..])
  }

  /** `%XX` for each byte, in order. */
  function PercentEncode(bs: seq<Byte>): (r: string)
    ensures |r| == 3 * |bs|
    ensures forall k :: 0 <= k < |r| ==> r[k] == '%' || IsHexDigit(r[k])
  {
    if bs == [] then ""
    else ['%', HexDigit(bs[0] / 16), HexDigit(bs[0] % 16)] + PercentEncode(bs[1..])
  }

  /** What URI.escape makes of one character. */
  function EscapeChar(c: char): (r: string)
    ensures IsSafe(c) ==> r == [c]
    ensures !IsSafe(c) ==> r == PercentEncode(Utf8(c))
  {
    if IsSafe(c) then [c] else PercentEncode(Utf8(c))
  }

  /**
   * URI.escape: the result holds only safe characters, `%` and
   * hexadecimal digits, so no control character or space survives.
   */
  function Escape(s: string): (r: string)
    ensures forall k :: 0 <= k < |r| ==> IsSafe(r[k]) || r[k] == '%' || IsHexDigit(r[k])
    ensures |r| >= |s|
  {
    if s == [] then "" else EscapeChar(s[0]) + Escape(s[1..])
  }

  /** Prefixing bytes onto a decoding that may have failed. */
  function Prepend(bs: seq<Byte>, rest: Option<seq<Byte>>): Option<seq<Byte>> {
    match rest
    case None => None
    case Some(tail) => Some(bs + tail)
  }

  /**
   * Decoding per section 2.4.1 of RFC 2396: `%XX` is one byte, any other
   * ASCII character stands for itself; a stray `%` or a non-ASCII
   * character makes the text undecodable.
   */
  function Unescape(t: string): Option<seq<Byte>>
    decreases |t|
  {
    if t == [] then Some([])
    else if t[0] == '%' then
      if |t| >= 3 && IsHexDigit(t[1]) && IsHexDigit(t[2])
      then Prepend([HexValue(t[1]) * 16 + HexValue(t[2])], Unescape(t[3..]))
      else None
    else if (t[0] as int) < 0x80 then Prepend([t[0] as int], Unescape(t[1..]))
    else None
  }

  lemma {:induction false} UnescapePercent(bs: seq<Byte>, t: string)
    ensures Unescape(PercentEncode(bs) + t) == Prepend(bs, Unescape(t))
  {
    if bs == [] {
      assert PercentEncode(bs) + t == t;
      match Unescape(t) { case None => case Some(tail) => assert bs + tail == tail; }
    } else {
      var b := bs[0];
      var hi, lo := HexDigit(b / 16), HexDigit(b % 16);
      var u := PercentEncode(bs) + t;
      assert u == ['%', hi, lo] + (PercentEncode(bs[1..]) + t);
      assert u[0] == '%' && u[1] == hi && u[2] == lo;
      assert u[3..] == PercentEncode(bs[1..]) + t;
      HexDigitValue(b / 16);
      HexDigitValue(b % 16);
      UnescapePercent(bs[1..], t);
      match Unescape(t) { case None => case Some(tail) => assert [b] + (bs[1..] + tail) == bs + tail; }
    }
  }

  lemma UnescapeChar(c: char, t: string)
    ensures Unescape(EscapeChar(c) + t) == Prepend(Utf8(c), Unescape(t))
  {
    if IsSafe(c) {
      var u := [c] + t;
      assert u[0] == c && u[1..] == t;
    } else {
      UnescapePercent(Utf8(c), t);
    }
  }

  /** Escaping loses nothing: unescaping gives back the UTF-8 bytes of the input. */
  lemma {:induction false} EscapeRoundTrip(s: string)
    ensures Unescape(Escape(s)) == Some(Utf8String(s))
  {
    if s != [] {
      UnescapeChar(s[0], Escape(s[1..]));
      EscapeRoundTrip(s[1..]);
    }
  }

  /** A string made only of safe characters, `/` and `@` included, is left as it is. */
  lemma {:induction false} EscapeKeepsSafe(s: string)
    requires forall k :: 0 <= k < |s| ==> IsSafe(s[k])
    ensures Escape(s) == s
  {
    if s != [] {
      EscapeKeepsSafe(s[1..]);
      assert [s[0]] + s[1..] == s;
    }
  }

  /** A tab and a carriage return become `%09` and `%0D`. */
  lemma EscapeControlCharacters()
    ensures Escape("\t\r") == "%09%0D"
  {
    assert Escape("\r") == "%0D" + Escape("");
  }

  /** An e-mail address with a slash keeps the slash: the path gains a segment. */
  lemma EscapeKeepsSlash()
    ensures Escape("foo@example.com/secrets") == "foo@example.com/secrets"
  {
    EscapeKeepsSafe("foo@example.com/secrets");
  }
}
