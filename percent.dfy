/**
 * Percent-encoding of form values: the value's characters are written as
 * UTF-8 bytes (RFC 3629, section 3), and every byte that is not an
 * unreserved character (RFC 3986, section 2.3) becomes '%' followed by two
 * upper-case hexadecimal digits (RFC 3986, section 2.1).
 */
module Percent {
  import opened Wrappers
  import opened Text

  type byte = x: int | 0 <= x < 256

  /** RFC 3986, section 2.3: ALPHA / DIGIT / "-" / "." / "_" / "~". */
  predicate Unreserved(c: char)
  {
    ('A' <= c <= 'Z') || ('a' <= c <= 'z') || ('0' <= c <= '9')
    || c == '-' || c == '.' || c == '_' || c == '~'
  }

  /** The UTF-8 encoding of one Unicode scalar value. */
  function Utf8(c: char): (r: seq<byte>)
    ensures |r| == (if c as int < 0x80 then 1 else if c as int < 0x800 then 2
                    else if c as int < 0x1_0000 then 3 else 4)
    ensures (r[0] < 0x80) == (|r| == 1)
    ensures |r| == 1 ==> r[0] == c as int
    ensures forall k :: 1 <= k < |r| ==> 0x80 <= r[k] < 0xC0
  {
    var cp := c as int;
    if cp < 0x80 then [cp]
    else if cp < 0x800 then [0xC0 + cp / 0x40, 0x80 + cp % 0x40]
    else if cp < 0x1_0000 then [0xE0 + cp / 0x1000, 0x80 + cp / 0x40 % 0x40, 0x80 + cp % 0x40]
    else [0xF0 + cp / 0x4_0000, 0x80 + cp / 0x1000 % 0x40, 0x80 + cp / 0x40 % 0x40, 0x80 + cp % 0x40]
  }

  /** The UTF-8 bytes of a string, the form in which Go holds a string. */
  function Utf8String(s: string): seq<byte>
  {
    if |s| == 0 then [] else Utf8(s[0]) + Utf8String(s[1..])
  }

  lemma {:induction false} Utf8StringAppend(a: string, b: string)
    ensures Utf8String(a + b) == Utf8String(a) + Utf8String(b)
  {
    if |a| > 0 {
      assert (a + b)[1..] == a[1..] + b;
      Utf8StringAppend(a[1..], b);
    } else {
      assert a + b == b;
    }
  }

  /** An upper-case hexadecimal digit. */
  function HexDigit(d: nat): (c: char)
    requires d < 16
    ensures Unreserved(c)
  {
    if d < 10 then (('0' as int) + d) as char else (('A' as int) + d - 10) as char
  }

  predicate IsHex(c: char)
  {
    ('0' <= c <= '9') || ('A' <= c <= 'F') || ('a' <= c <= 'f')
  }

  /** The value of a hexadecimal digit of either case (RFC 3986, section 2.1). */
  function HexValue(c: char): (d: nat)
    requires IsHex(c)
    ensures d < 16
  {
    if c <= '9' then (c as int) - ('0' as int)
    else if c <= 'F' then (c as int) - ('A' as int) + 10
    else (c as int) - ('a' as int) + 10
  }

  lemma HexRoundTrip(d: nat)
    requires d < 16
    ensures IsHex(HexDigit(d)) && HexValue(HexDigit(d)) == d
  {
  }

  function EscapeByte(b: byte): string
  {
    if Unreserved(b as char) then [b as char] else ['%', HexDigit(b / 16), HexDigit(b % 16)]
  }

  /** The percent-encoded form of a byte string. */
  function Escape(bs: seq<byte>): string
  {
    if |bs| == 0 then "" else EscapeByte(bs[0]) + Escape(bs[1..])
  }

  /** A character percent-encoded output may contain. */
  predicate WireSafe(c: char)
  {
    Unreserved(c) || c == '%'
  }

  predicate AllWireSafe(s: string)
  {
    forall k :: 0 <= k < |s| ==> WireSafe(s[k])
  }

  /** Percent-encoded output holds only unreserved characters and '%'. */
  lemma {:induction false} EscapeWireSafe(bs: seq<byte>)
    ensures AllWireSafe(Escape(bs))
  {
    if |bs| > 0 {
      EscapeWireSafe(bs[1..]);
    }
  }

  lemma {:induction false} EscapeAppend(a: seq<byte>, b: seq<byte>)
    ensures Escape(a + b) == Escape(a) + Escape(b)
  {
    if |a| > 0 {
      assert (a + b)[1..] == a[1..] + b;
      EscapeAppend(a[1..], b);
    } else {
      assert a + b == b;
    }
  }

  /** Percent-decoding; None on a '%' without two hex digits or a reserved character. */
  function Unescape(s: string): Option<seq<byte>>
  {
    if |s| == 0 then Some([])
    else if s[0] == '%' then
      if |s| < 3 || !IsHex(s[1]) || !IsHex(s[2]) then None
      else
        match Unescape(s[3..])
        case Some(rest) => Some([16 * HexValue(s[1]) + HexValue(s[2])] + rest)
        case None => None
    else if Unreserved(s[0]) then
      match Unescape(s[1..])
      case Some(rest) => Some([s[0] as int] + rest)
      case None => None
    else None
  }

  lemma UnescapeByte(b: byte, t: string)
    ensures Unescape(EscapeByte(b) + t) ==
      match Unescape(t) case Some(rest) => Some([b] + rest) case None => None
  {
    var e := EscapeByte(b);
    if Unreserved(b as char) {
      assert (e + t)[1..] == t;
    } else {
      HexRoundTrip(b / 16);
      HexRoundTrip(b % 16);
      assert (e + t)[3..] == t;
    }
  }

  /** Percent-decoding undoes percent-encoding, for every byte string. */
  lemma {:induction false} UnescapeEscape(bs: seq<byte>)
    ensures Unescape(Escape(bs)) == Some(bs)
  {
    if |bs| > 0 {
      UnescapeEscape(bs[1..]);
      UnescapeByte(bs[0], Escape(bs[1..]));
      assert [bs[0]] + bs[1..] == bs;
    }
  }

  /** A form value (a Go string) percent-encoded for a request body. */
  function EncodeValue(s: string): (r: string)
    ensures AllWireSafe(r)
  {
    EscapeWireSafe(Utf8String(s));
    Escape(Utf8String(s))
  }

  /** Encoding works character by character. */
  lemma EncodeValueAppend(a: string, b: string)
    ensures EncodeValue(a + b) == EncodeValue(a) + EncodeValue(b)
  {
    Utf8StringAppend(a, b);
    EscapeAppend(Utf8String(a), Utf8String(b));
  }

  /** A line feed becomes "%0A". */
  lemma EncodeLineFeed()
    ensures EncodeValue("\n") == "%0A"
  {
    assert Utf8String("\n") == [10];
    assert Escape([10]) == EscapeByte(10);
  }

  predicate AllUnreserved(s: string)
  {
    forall k :: 0 <= k < |s| ==> Unreserved(s[k])
  }

  /** A value made of unreserved characters only is sent as it is. */
  lemma {:induction false} EncodeUnreserved(s: string)
    requires AllUnreserved(s)
    ensures EncodeValue(s) == s
  {
    if |s| > 0 {
      EncodeUnreserved(s[1..]);
      assert Utf8String(s) == [s[0] as int] + Utf8String(s[1..]);
      assert ([s[0] as int] + Utf8String(s[1..]))[1..] == Utf8String(s[1..]);
    }
  }

  /** Decodes bytes below 0x80 to the characters they stand for. */
  function AsciiDecode(bs: seq<byte>): Option<string>
  {
    if |bs| == 0 then Some("")
    else if bs[0] >= 0x80 then None
    else
      match AsciiDecode(bs[1..])
      case Some(rest) => Some([bs[0] as char] + rest)
      case None => None
  }

  /** Decodes a percent-encoded value known to be ASCII text. */
  function DecodeAsciiValue(v: string): Option<string>
  {
    match Unescape(v)
    case Some(bs) => AsciiDecode(bs)
    case None => None
  }

  lemma {:induction false} AsciiDecodeUtf8(s: string)
    requires IsAscii(s)
    ensures AsciiDecode(Utf8String(s)) == Some(s)
  {
    if |s| > 0 {
      AsciiDecodeUtf8(s[1..]);
      assert Utf8String(s)[1..] == Utf8String(s[1..]);
      assert [s[0]] + s[1..] == s;
    }
  }

  /** An ASCII value survives encoding and decoding unchanged. */
  lemma AsciiValueRoundTrip(s: string)
    requires IsAscii(s)
    ensures DecodeAsciiValue(EncodeValue(s)) == Some(s)
  {
    UnescapeEscape(Utf8String(s));
    AsciiDecodeUtf8(s);
  }
}
