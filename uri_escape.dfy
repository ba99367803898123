/** Uri.EscapeDataString, which builds the query string of the upstream request: the UTF-8
    bytes of the text, with every byte that is not an RFC 3986 unreserved character written
    as '%' and two upper-case hexadecimal digits. */
module UriEscape {
  import opened Wrappers

  newtype Byte = x: int | 0 <= x < 256

  /** The UTF-8 encoding of one Unicode scalar value. */
  function Utf8(c: char): (bs: seq<Byte>)
    ensures 1 <= |bs| <= 4
    ensures (|bs| == 1) == (bs[0] < 0x80)
    ensures |bs| == 2 ==> 0xC0 <= bs[0] < 0xE0
    ensures |bs| == 3 ==> 0xE0 <= bs[0] < 0xF0
    ensures |bs| == 4 ==> 0xF0 <= bs[0] < 0xF8
    ensures forall i :: 1 <= i < |bs| ==> 0x80 <= bs[i] < 0xC0
  {
    var cp := c as int;
    if cp < 0x80 then [cp as Byte]
    else if cp < 0x800 then [(0xC0 + cp / 64) as Byte, (0x80 + cp % 64) as Byte]
    else if cp < 0x1_0000 then
      [(0xE0 + cp / 4096) as Byte, (0x80 + cp / 64 % 64) as Byte, (0x80 + cp % 64) as Byte]
    else
      [(0xF0 + cp / 262144) as Byte, (0x80 + cp / 4096 % 64) as Byte,
       (0x80 + cp / 64 % 64) as Byte, (0x80 + cp % 64) as Byte]
  }

  /** The scalar value a well-formed UTF-8 sequence of one character stands for. */
  function ScalarOf(bs: seq<Byte>): int
    requires 1 <= |bs| <= 4
  {
    if |bs| == 1 then bs[0] as int
    else if |bs| == 2 then (bs[0] as int - 0xC0) * 64 + (bs[1] as int - 0x80)
    else if |bs| == 3 then
      (bs[0] as int - 0xE0) * 4096 + (bs[1] as int - 0x80) * 64 + (bs[2] as int - 0x80)
    else
      (bs[0] as int - 0xF0) * 262144 + (bs[1] as int - 0x80) * 4096
      + (bs[2] as int - 0x80) * 64 + (bs[3] as int - 0x80)
  }

  /** Decoding the bytes of a character gives the character back. */
  lemma Utf8RoundTrip(c: char)
    ensures ScalarOf(Utf8(c)) == c as int
  {
    var cp := c as int;
    assert cp == cp / 64 * 64 + cp % 64;
    assert cp / 64 == cp / 4096 * 64 + cp / 64 % 64;
    assert cp / 4096 == cp / 262144 * 64 + cp / 4096 % 64;
  }

  /** The UTF-8 encoding of a string. */
  function Utf8Encode(s: string): (bs: seq<Byte>)
    ensures |bs| >= |s|
  {
    if s == [] then [] else Utf8(s[0]) + Utf8Encode(s[1..])
  }

  /** An RFC 3986 unreserved character: ALPHA / DIGIT / "-" / "." / "_" / "~". */
  predicate IsUnreserved(c: char) {
    ('A' <= c <= 'Z') || ('a' <= c <= 'z') || ('0' <= c <= '9') || c == '-' || c == '.' || c == '_' || c == '~'
  }

  /** The upper-case hexadecimal digit of n. */
  function HexDigit(n: nat): (c: char)
    requires n < 16
    ensures IsUnreserved(c)
  {
    if n < 10 then ('0' as int + n) as char else ('A' as int + n - 10) as char
  }

  predicate IsHexDigit(c: char) {
    ('0' <= c <= '9') || ('A' <= c <= 'F') || ('a' <= c <= 'f')
  }

  /** The value of a hexadecimal digit. */
  function HexValue(c: char): (n: nat)
    requires IsHexDigit(c)
    ensures n < 16
  {
    if '0' <= c <= '9' then c as int - '0' as int
    else if 'A' <= c <= 'F' then c as int - 'A' as int + 10
    else c as int - 'a' as int + 10
  }

  lemma HexValueOfDigit(n: nat)
    requires n < 16
    ensures IsHexDigit(HexDigit(n)) && HexValue(HexDigit(n)) == n
  {
  }

  /** One byte of the escaped text. */
  function EscapeByte(b: Byte): string {
    if b < 0x80 && IsUnreserved(b as int as char) then [b as int as char]
    else ['%', HexDigit(b as int / 16), HexDigit(b as int % 16)]
  }

  /** Percent-encodes a byte sequence. */
  function PercentEncode(bs: seq<Byte>): (r: string)
    ensures forall i :: 0 <= i < |r| ==> IsUnreserved(r[i]) || r[i] == '%'
  {
    if bs == [] then [] else EscapeByte(bs[0]) + PercentEncode(bs[1..])
  }

  /** Uri.EscapeDataString(s). */
  function EscapeDataString(s: string): (r: string)
    ensures forall i :: 0 <= i < |r| ==> IsUnreserved(r[i]) || r[i] == '%'
  {
    PercentEncode(Utf8Encode(s))
  }

  /** A reserved character such as '&' or '=' that is not in the prefix is not in the prefix
      followed by an escaped value either. */
  lemma EscapedHasNoSeparator(prefix: string, s: string, d: char)
    requires d !in prefix && !IsUnreserved(d) && d != '%'
    ensures d !in prefix + EscapeDataString(s)
  {
    var e := EscapeDataString(s);
    assert forall i :: 0 <= i < |e| ==> (prefix + e)[|prefix| + i] == e[i];
  }

  /** The bytes of a percent-encoded text, or None when it is not one. */
  function PercentDecode(s: string): Option<seq<Byte>>
    decreases |s|
  {
    if s == [] then Some([])
    else if s[0] == '%' then
      if |s| >= 3 && IsHexDigit(s[1]) && IsHexDigit(s[2]) then
        match PercentDecode(s[3..])
        case Some(rest) => Some([(HexValue(s[1]) * 16 + HexValue(s[2])) as Byte] + rest)
        case None => None
      else None
    else if s[0] as int < 0x80 then
      match PercentDecode(s[1..])
      case Some(rest) => Some([s[0] as int as Byte] + rest)
      case None => None
    else None
  }

  /** Decoding the escaped bytes gives the bytes back. */
  lemma {:induction false} PercentDecodeEncode(bs: seq<Byte>)
    ensures PercentDecode(PercentEncode(bs)) == Some(bs)
  {
    if bs != [] {
      var b := bs[0];
      assert bs == [b] + bs[1..];
      var e := EscapeByte(b);
      var s := PercentEncode(bs);
      PercentDecodeEncode(bs[1..]);
      assert s == e + PercentEncode(bs[1..]);
      if b < 0x80 && IsUnreserved(b as int as char) {
        assert s[0] == b as int as char && s[0] != '%';
        assert s[1..] == PercentEncode(bs[1..]);
        assert s[0] as int as Byte == b;
        assert PercentDecode(s) == Some([b] + bs[1..]);
      } else {
        HexValueOfDigit(b as int / 16);
        HexValueOfDigit(b as int % 16);
        assert s[3..] == PercentEncode(bs[1..]);
        assert PercentDecode(s) == Some([b] + bs[1..]);
      }
    }
  }

  /** A string of unreserved ASCII characters, such as "USD", is its own escaping. */
  lemma {:induction false} EscapeUnreserved(s: string)
    requires forall i :: 0 <= i < |s| ==> IsUnreserved(s[i])
    ensures EscapeDataString(s) == s
  {
    if s != [] {
      EscapeUnreserved(s[1..]);
      assert Utf8Encode(s) == [s[0] as int as Byte] + Utf8Encode(s[1..]);
      assert Utf8Encode(s)[1..] == Utf8Encode(s[1..]);
    }
  }

  /** The index of the first d in s. */
  function IndexOf(s: string, d: char): (i: nat)
    requires d in s
    ensures i < |s| && s[i] == d && d !in s[..i]
  {
    if s[0] == d then 0 else 1 + IndexOf(s[1..], d)
  }

  /** The pieces of s between the occurrences of d, as a server splits a query string. */
  function SplitOn(s: string, d: char): (parts: seq<string>)
    ensures |parts| >= 1
    decreases |s|
  {
    if d !in s then [s]
    else
      var i := IndexOf(s, d);
      [s[..i]] + SplitOn(s[i + 1..], d)
  }

  /** A separator after a piece that does not contain it ends that piece. */
  lemma SplitOnConcat(a: string, d: char, b: string)
    requires d !in a
    ensures SplitOn(a + [d] + b, d) == [a] + SplitOn(b, d)
  {
    var s := a + [d] + b;
    assert s[|a|] == d;
    var i := IndexOf(s, d);
    assert s[..i] == a;
    assert s[i + 1..] == b;
  }
}
