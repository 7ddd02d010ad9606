// `encodeURIComponent` (section 19.2.6 of ECMA-262) on well-formed text: unreserved characters stay,
// every other becomes the percent-encoded bytes of its UTF-8 form. It is undone by decoding, so no
// two texts encode alike, and no `:` is ever written.
module UriComponent {
  import opened Prelude

  predicate IsUnreserved(c: char) {
    || 'A' <= c <= 'Z' || 'a' <= c <= 'z' || '0' <= c <= '9'
    || c == '-' || c == '_' || c == '.' || c == '!' || c == '~' || c == '*' || c == '\'' || c == '(' || c == ')'
  }

  type Byte = b: int | 0 <= b < 256

  function HexDigit(d: int): char
    requires 0 <= d < 16
  {
    if d < 10 then ('0' as int + d) as char else ('A' as int + d - 10) as char
  }

  function Percent(b: Byte): string {
    ['%', HexDigit(b / 16), HexDigit(b % 16)]
  }

  /** The UTF-8 form of a character (section 3 of RFC 3629). */
  function Utf8(c: char): seq<Byte> {
    var n := c as int;
    if n < 0x80 then [n]
    else if n < 0x800 then [0xC0 + n / 0x40, 0x80 + n % 0x40]
    else if n < 0x10000 then [0xE0 + n / 0x1000, 0x80 + n / 0x40 % 0x40, 0x80 + n % 0x40]
    else [0xF0 + n / 0x40000, 0x80 + n / 0x1000 % 0x40, 0x80 + n / 0x40 % 0x40, 0x80 + n % 0x40]
  }

  function PercentAll(bytes: seq<Byte>): string {
    if bytes == [] then [] else Percent(bytes[0]) + PercentAll(bytes[1..])
  }

  function EncodeChar(c: char): string {
    if IsUnreserved(c) then [c] else PercentAll(Utf8(c))
  }

  function Encode(text: string): string {
    if text == [] then [] else EncodeChar(text[0]) + Encode(text[1..])
  }

  // ---- decoding ----------------------------------------------------------------------------------

  function HexValue(c: char): int {
    if '0' <= c <= '9' then c as int - '0' as int else c as int - 'A' as int + 10
  }

  /** The byte percent-encoded at `i`. */
  function ByteAt(text: string, i: nat): int {
    if i + 3 <= |text| then 16 * HexValue(text[i + 1]) + HexValue(text[i + 2]) else 0
  }

  predicate IsScalar(n: int) {
    0 <= n < 0xD800 || 0xE000 <= n < 0x110000
  }

  datatype Read = Read(c: char, length: nat)

  /** How many bytes a UTF-8 form has, by its first. */
  function Utf8Length(first: int): nat {
    if first < 0x80 then 1 else if first < 0xE0 then 2 else if first < 0xF0 then 3 else 4
  }

  function CodePoint(first: int, second: int, third: int, fourth: int): int {
    match Utf8Length(first)
    case 1 => first
    case 2 => (first - 0xC0) * 0x40 + (second - 0x80)
    case 3 => (first - 0xE0) * 0x1000 + (second - 0x80) * 0x40 + (third - 0x80)
    case _ => (first - 0xF0) * 0x40000 + (second - 0x80) * 0x1000 + (third - 0x80) * 0x40 + (fourth - 0x80)
  }

  /** The character written at the start of a text, and how much of the text it takes. */
  function ReadChar(text: string): Read {
    if text == [] || text[0] != '%' then Read(if text == [] then ' ' else text[0], 1)
    else
      var n := CodePoint(ByteAt(text, 0), ByteAt(text, 3), ByteAt(text, 6), ByteAt(text, 9));
      Read(if IsScalar(n) then n as char else ' ', 3 * Utf8Length(ByteAt(text, 0)))
  }

  function Decode(text: string): string {
    if text == [] then [] else
      var read := ReadChar(text);
      if read.length <= |text| then [read.c] + Decode(text[read.length..]) else []
  }

  lemma PercentReads(b: Byte, rest: string)
    ensures |Percent(b) + rest| >= 3
    ensures (Percent(b) + rest)[0] == '%' && ByteAt(Percent(b) + rest, 0) == b
  {
    assert b == 16 * (b / 16) + b % 16;
    HexReads(b / 16);
    HexReads(b % 16);
  }

  lemma HexReads(d: int)
    requires 0 <= d < 16
    ensures HexValue(HexDigit(d)) == d
  {
  }

  lemma ByteBehind(head: string, tail: string, i: nat)
    requires |head| == 3
    ensures ByteAt(head + tail, i + 3) == ByteAt(tail, i)
  {
  }

  lemma {:induction false} PercentAllReads(bytes: seq<Byte>, rest: string)
    ensures |PercentAll(bytes)| == 3 * |bytes|
    ensures forall i | 0 <= i < |bytes| :: ByteAt(PercentAll(bytes) + rest, 3 * i) == bytes[i]
    ensures bytes != [] ==> (PercentAll(bytes) + rest)[0] == '%'
  {
    if bytes != [] {
      var all, tail := PercentAll(bytes) + rest, PercentAll(bytes[1..]) + rest;
      PercentAllReads(bytes[1..], rest);
      PercentReads(bytes[0], tail);
      Associates(Percent(bytes[0]), PercentAll(bytes[1..]), rest);
      forall i | 0 <= i < |bytes| ensures ByteAt(all, 3 * i) == bytes[i] {
        if i > 0 {
          assert ByteAt(tail, 3 * (i - 1)) == bytes[1..][i - 1];
          ByteBehind(Percent(bytes[0]), tail, 3 * (i - 1));
        }
      }
    }
  }

  /** Bytes of a UTF-8 form, whatever stands behind them, give the character back. */
  lemma Utf8Reads(c: char, second: int, third: int, fourth: int)
    requires var bytes := Utf8(c);
             && (|bytes| > 1 ==> second == bytes[1])
             && (|bytes| > 2 ==> third == bytes[2])
             && (|bytes| > 3 ==> fourth == bytes[3])
    ensures CodePoint(Utf8(c)[0], second, third, fourth) == c as int
    ensures Utf8Length(Utf8(c)[0]) == |Utf8(c)|
  {
    var n := c as int;
    assert n / 0x1000 == n / 0x40 / 0x40 && n / 0x40000 == n / 0x40 / 0x40 / 0x40;
  }

  lemma CharReads(c: char, rest: string)
    ensures ReadChar(EncodeChar(c) + rest) == Read(c, |EncodeChar(c)|)
  {
    if !IsUnreserved(c) {
      var bytes, text := Utf8(c), EncodeChar(c) + rest;
      PercentAllReads(bytes, rest);
      forall i | 0 <= i < |bytes| ensures ByteAt(text, 3 * i) == bytes[i] {
      }
      assert ByteAt(text, 3 * 0) == bytes[0];
      assert |bytes| > 1 ==> ByteAt(text, 3 * 1) == bytes[1];
      assert |bytes| > 2 ==> ByteAt(text, 3 * 2) == bytes[2];
      assert |bytes| > 3 ==> ByteAt(text, 3 * 3) == bytes[3];
      Utf8Reads(c, ByteAt(text, 3), ByteAt(text, 6), ByteAt(text, 9));
    }
  }

  lemma EncodedIsNotEmpty(c: char)
    ensures EncodeChar(c) != []
  {
    PercentAllReads(Utf8(c), []);
  }

  lemma {:induction false} DecodeUndoes(text: string)
    ensures Decode(Encode(text)) == text
  {
    if text != [] {
      var rest := Encode(text[1..]);
      CharReads(text[0], rest);
      EncodedIsNotEmpty(text[0]);
      DecodeUndoes(text[1..]);
      assert Encode(text)[|EncodeChar(text[0])|..] == rest;
    }
  }

  /** A text of unreserved characters stays as it is; any other becomes longer. */
  lemma {:induction false} UnreservedStays(text: string)
    ensures |Encode(text)| >= |text|
    ensures Encode(text) == text <==> forall i | 0 <= i < |text| :: IsUnreserved(text[i])
  {
    if text != [] {
      UnreservedStays(text[1..]);
      PercentAllReads(Utf8(text[0]), []);
      if Encode(text) == text {
        assert Encode(text)[1..] == Encode(text[1..]);
      }
    }
  }

  lemma {:induction false} NoColonInPercents(bytes: seq<Byte>)
    ensures ':' !in PercentAll(bytes)
  {
    if bytes != [] {
      NoColonInPercents(bytes[1..]);
    }
  }

  lemma {:induction false} NoColon(text: string)
    ensures ':' !in Encode(text)
  {
    if text != [] {
      NoColon(text[1..]);
      NoColonInPercents(Utf8(text[0]));
    }
  }
}
