/** `encodeURIComponent`, which the listing URLs apply to their filter
    expressions and cursors: unreserved characters stay, every other code
    point becomes the percent-escapes of its UTF-8 bytes. */
module Uri {
  import Text

  /** The characters `encodeURIComponent` leaves as they are. */
  predicate Unreserved(c: char) {
    Text.IsAsciiAlnum(c) || c in "-_.!~*'()"
  }

  function HexDigit(d: nat): (c: char)
    requires d < 16
    ensures Text.IsAsciiAlnum(c)
  {
    if d < 10 then ('0' as int + d) as char else ('A' as int + d - 10) as char
  }

  function PercentByte(b: nat): (r: string)
    requires b < 256
    ensures |r| == 3 && r[0] == '%' && Unreserved(r[1]) && Unreserved(r[2])
  {
    "%" + [HexDigit(b / 16), HexDigit(b % 16)]
  }

  /** The UTF-8 encoding of one code point. */
  function Utf8(c: char): (r: seq<nat>)
    ensures 1 <= |r| <= 4
    ensures forall i | 0 <= i < |r| :: r[i] < 256
  {
    var n := c as int;
    if n < 0x80 then [n]
    else if n < 0x800 then [0xC0 + n / 0x40, 0x80 + n % 0x40]
    else if n < 0x10000 then [0xE0 + n / 0x1000, 0x80 + (n / 0x40) % 0x40, 0x80 + n % 0x40]
    else [0xF0 + (n / 0x40000) % 8, 0x80 + (n / 0x1000) % 0x40, 0x80 + (n / 0x40) % 0x40, 0x80 + n % 0x40]
  }

  function EscapeBytes(bytes: seq<nat>): (r: string)
    requires forall i | 0 <= i < |bytes| :: bytes[i] < 256
    ensures |r| == 3 * |bytes|
    ensures forall i | 0 <= i < |r| :: r[i] == '%' || Unreserved(r[i])
  {
    if bytes == [] then "" else PercentByte(bytes[0]) + EscapeBytes(bytes[1..])
  }

  /** The result uses only unreserved characters and `%`, and a string made
      of unreserved characters alone is returned unchanged. */
  function EncodeURIComponent(s: string): (r: string)
    ensures forall i | 0 <= i < |r| :: r[i] == '%' || Unreserved(r[i])
    ensures (forall i | 0 <= i < |s| :: Unreserved(s[i])) ==> r == s
  {
    if s == [] then ""
    else
      var head := if Unreserved(s[0]) then [s[0]] else EscapeBytes(Utf8(s[0]));
      head + EncodeURIComponent(s[1..])
  }

  /** Encoding works character by character, so it distributes over
      concatenation. */
  lemma {:induction false} EncodeAppend(a: string, b: string)
    ensures EncodeURIComponent(a + b) == EncodeURIComponent(a) + EncodeURIComponent(b)
  {
    if a == [] {
      assert a + b == b;
    } else {
      assert (a + b)[0] == a[0];
      assert (a + b)[1..] == a[1..] + b;
      EncodeAppend(a[1..], b);
    }
  }
}
