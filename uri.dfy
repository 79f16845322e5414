/** JavaScript `encodeURIComponent`: percent-encoding (section 2.1 of RFC 3986)
    of the UTF-8 bytes of every character outside a small unescaped set, with
    upper-case hexadecimal digits. `Decode` is the inverse (the effect of
    `decodeURIComponent` on well-formed input) and serves as the partner the
    encoder is proved against. */
module Uri {
  import opened Web

  type Byte = b: int | 0 <= b < 256

  /** Characters `encodeURIComponent` leaves as they are. */
  predicate Unescaped(c: char) {
    ('A' <= c <= 'Z') || ('a' <= c <= 'z') || ('0' <= c <= '9')
    || c == '-' || c == '_' || c == '.' || c == '!' || c == '~' || c == '*'
    || c == '\'' || c == '(' || c == ')'
  }

  /** Upper-case hexadecimal digits. */
  predicate IsHexUpper(c: char) {
    ('0' <= c <= '9') || ('A' <= c <= 'F')
  }

  /** A code point that Dafny's `char` (a Unicode scalar value) can hold. */
  predicate IsScalar(n: int) {
    (0 <= n < 0xD800) || (0xE000 <= n < 0x110000)
  }

  // ---------------------------------------------------------------------
  // UTF-8

  /** The UTF-8 encoding of one code point. */
  function Utf8(n: int): (bytes: seq<Byte>)
    requires 0 <= n < 0x110000
    ensures 1 <= |bytes| <= 4
  {
    if n < 0x80 then [n]
    else if n < 0x800 then [0xC0 + n / 64, 0x80 + n % 64]
    else if n < 0x10000 then [0xE0 + n / 4096, 0x80 + n / 64 % 64, 0x80 + n % 64]
    else [0xF0 + n / 262144, 0x80 + n / 4096 % 64, 0x80 + n / 64 % 64, 0x80 + n % 64]
  }

  /** Length of the UTF-8 sequence a lead byte announces; 0 for a byte that
      cannot start one. */
  function SequenceLength(lead: Byte): nat {
    if lead < 0x80 then 1
    else if 0xC0 <= lead < 0xE0 then 2
    else if 0xE0 <= lead < 0xF0 then 3
    else if 0xF0 <= lead < 0xF8 then 4
    else 0
  }

  predicate IsContinuation(b: Byte) {
    0x80 <= b < 0xC0
  }

  /** The code point a lead byte and its continuation bytes spell. */
  function CodePoint(lead: Byte, rest: seq<Byte>): int
    requires |rest| == SequenceLength(lead) - 1
  {
    var c := seq(|rest|, k requires 0 <= k < |rest| => rest[k] as int - 0x80);
    match |rest|
    case 0 => lead as int
    case 1 => (lead as int - 0xC0) * 64 + c[0]
    case 2 => ((lead as int - 0xE0) * 64 + c[0]) * 64 + c[1]
    case 3 => (((lead as int - 0xF0) * 64 + c[0]) * 64 + c[1]) * 64 + c[2]
  }

  lemma DivSplit(n: nat)
    ensures n / 4096 == n / 64 / 64
    ensures n / 262144 == n / 64 / 64 / 64
    ensures n / 4096 % 64 == n / 64 / 64 % 64
  {
    var a := n / 64;
    var b := a / 64;
    assert n == 64 * a + n % 64;
    assert a == 64 * b + a % 64;
    assert n == 4096 * b + (64 * (a % 64) + n % 64);
    assert 64 * (a % 64) + n % 64 < 4096;
    var c := b / 64;
    assert b == 64 * c + b % 64;
    assert n == 262144 * c + (4096 * (b % 64) + 64 * (a % 64) + n % 64);
  }

  /** Decoding the UTF-8 encoding gives the code point back, and the lead byte
      announces the length actually used. */
  lemma Utf8RoundTrip(n: int)
    requires 0 <= n < 0x110000
    ensures var bs := Utf8(n);
      && SequenceLength(bs[0]) == |bs|
      && (forall k :: 1 <= k < |bs| ==> IsContinuation(bs[k]))
      && CodePoint(bs[0], bs[1..]) == n
  {
    DivSplit(n);
    var a := n / 64;
    var b := a / 64;
    assert n == 64 * a + n % 64;
    assert a == 64 * b + a % 64;
    assert b == 64 * (b / 64) + b % 64;
  }

  // ---------------------------------------------------------------------
  // Hexadecimal

  function HexDigit(d: int): (c: char)
    requires 0 <= d < 16
    ensures IsHexUpper(c)
  {
    if d < 10 then (48 + d) as char else (55 + d) as char
  }

  /** The value of a hexadecimal digit of either case. */
  function HexValue(c: char): Option<int> {
    if '0' <= c <= '9' then Some(c as int - 48)
    else if 'A' <= c <= 'F' then Some(c as int - 55)
    else if 'a' <= c <= 'f' then Some(c as int - 87)
    else None
  }

  lemma HexRoundTrip(d: int)
    requires 0 <= d < 16
    ensures HexValue(HexDigit(d)) == Some(d)
  {
  }

  // ---------------------------------------------------------------------
  // Encoding

  function EncodeByte(b: Byte): (e: string)
    ensures |e| == 3 && e[0] == '%' && IsHexUpper(e[1]) && IsHexUpper(e[2])
  {
    ['%', HexDigit(b / 16), HexDigit(b % 16)]
  }

  function EncodeBytes(bs: seq<Byte>): (e: string)
    ensures |e| == 3 * |bs|
  {
    if bs == [] then [] else EncodeByte(bs[0]) + EncodeBytes(bs[1..])
  }

  function EncodeChar(c: char): string {
    if Unescaped(c) then [c] else EncodeBytes(Utf8(c as int))
  }

  /** `encodeURIComponent(s)`. */
  function Encode(s: string): string {
    if s == [] then [] else EncodeChar(s[0]) + Encode(s[1..])
  }

  /** Characters that may appear in an encoded component. */
  predicate EncodedChar(c: char) {
    Unescaped(c) || c == '%' || IsHexUpper(c)
  }

  predicate AllEncodedChars(e: string) {
    forall k :: 0 <= k < |e| ==> EncodedChar(e[k])
  }

  lemma {:induction false} EncodeBytesChars(bs: seq<Byte>)
    ensures AllEncodedChars(EncodeBytes(bs))
  {
    if bs != [] {
      EncodeBytesChars(bs[1..]);
    }
  }

  /** An encoded component holds only unescaped characters, `%` and
      upper-case hexadecimal digits: no `&`, `#`, `=`, `?`, `/`, `+` or space
      can reach the query string from it. */
  lemma {:induction false} EncodeIsSafe(s: string)
    ensures AllEncodedChars(Encode(s))
    ensures forall k :: 0 <= k < |Encode(s)| ==>
      Encode(s)[k] !in {'&', '#', '=', '?', '/', '+', ' '}
  {
    if s != [] {
      EncodeIsSafe(s[1..]);
      if !Unescaped(s[0]) {
        EncodeBytesChars(Utf8(s[0] as int));
      }
    }
  }

  // ---------------------------------------------------------------------
  // Decoding

  /** The byte escaped as `%XY` at the start of `s`. */
  function EscapedByte(s: string): Option<Byte> {
    if |s| >= 3 && s[0] == '%' then
      match (HexValue(s[1]), HexValue(s[2]))
      case (Some(h), Some(l)) => Some(16 * h + l)
      case _ => None
    else None
  }

  /** `k` escaped continuation bytes at the start of `s`. */
  function Continuations(s: string, k: nat): (r: Option<seq<Byte>>)
    ensures r.Some? ==> |r.value| == k && 3 * k <= |s|
    decreases k
  {
    if k == 0 then Some([])
    else match EscapedByte(s)
      case Some(b) =>
        if !IsContinuation(b) then None
        else (match Continuations(s[3..], k - 1)
          case Some(rest) => Some([b] + rest)
          case None => None)
      case None => None
  }

  /** Decodes a percent-encoded component; `None` for malformed input (a bad
      escape, a broken or over-long UTF-8 sequence, or a non-scalar value). */
  function Decode(s: string): Option<string>
    decreases |s|
  {
    if s == [] then Some([])
    else if s[0] != '%' then
      (match Decode(s[1..])
       case Some(t) => Some([s[0]] + t)
       case None => None)
    else match EscapedByte(s)
      case None => None
      case Some(lead) =>
        var len := SequenceLength(lead);
        if len == 0 then None
        else match Continuations(s[3..], len - 1)
          case None => None
          case Some(rest) =>
            var n := CodePoint(lead, rest);
            if !IsScalar(n) || |Utf8(n)| != len then None
            else (match Decode(s[3 * len..])
              case Some(t) => Some([n as char] + t)
              case None => None)
  }

  /** The escape of a byte reads back as that byte, whatever follows it. */
  lemma EscapedByteOf(b: Byte, rest: string)
    ensures EscapedByte(EncodeByte(b) + rest) == Some(b)
  {
    HexRoundTrip(b / 16);
    HexRoundTrip(b % 16);
    var e := EncodeByte(b) + rest;
    assert e[1] == HexDigit(b / 16) && e[2] == HexDigit(b % 16);
  }

  /** An encoded byte sequence starts with the escape of its first byte. */
  lemma EscapedLead(bs: seq<Byte>, tail: string)
    requires bs != []
    ensures EscapedByte(EncodeBytes(bs) + tail) == Some(bs[0])
    ensures (EncodeBytes(bs) + tail)[3..] == EncodeBytes(bs[1..]) + tail
  {
    assert EncodeBytes(bs) + tail == EncodeByte(bs[0]) + (EncodeBytes(bs[1..]) + tail);
    EscapedByteOf(bs[0], EncodeBytes(bs[1..]) + tail);
  }

  lemma {:induction false} ContinuationsOfEncoded(bs: seq<Byte>, tail: string)
    requires forall k :: 0 <= k < |bs| ==> IsContinuation(bs[k])
    ensures Continuations(EncodeBytes(bs) + tail, |bs|) == Some(bs)
  {
    if bs != [] {
      EscapedLead(bs, tail);
      ContinuationsOfEncoded(bs[1..], tail);
      assert [bs[0]] + bs[1..] == bs;
    }
  }

  /** Decoding the escapes of one character's UTF-8 bytes yields that
      character and leaves the rest of the input to be decoded. */
  lemma EncodeEscapedRoundTrip(c: char, tail: string)
    requires !Unescaped(c)
    ensures Decode(EncodeChar(c) + tail) ==
      match Decode(tail)
      case Some(t) => Some([c] + t)
      case None => None
  {
    var n := c as int;
    var bs := Utf8(n);
    var e := EncodeBytes(bs) + tail;
    Utf8RoundTrip(n);
    EscapedLead(bs, tail);
    ContinuationsOfEncoded(bs[1..], tail);
    assert e[3 * |bs|..] == e[3..][3 * (|bs| - 1)..];
    assert e[3 * |bs|..] == tail;
    assert (CodePoint(bs[0], bs[1..]) as char) == c;
  }

  /** Decoding the encoding of one character yields that character and leaves
      the rest of the input to be decoded. */
  lemma EncodeCharRoundTrip(c: char, tail: string)
    ensures Decode(EncodeChar(c) + tail) ==
      match Decode(tail)
      case Some(t) => Some([c] + t)
      case None => None
  {
    if Unescaped(c) {
      assert (EncodeChar(c) + tail)[1..] == tail;
    } else {
      EncodeEscapedRoundTrip(c, tail);
    }
  }

  /** Decoding undoes encoding, for every string. */
  lemma {:induction false} EncodeRoundTrip(s: string)
    ensures Decode(Encode(s)) == Some(s)
  {
    if s != [] {
      EncodeRoundTrip(s[1..]);
      EncodeCharRoundTrip(s[0], Encode(s[1..]));
      assert [s[0]] + s[1..] == s;
    }
  }

  /** Encoding is injective: different components never collide. */
  lemma EncodeInjective(s: string, t: string)
    requires Encode(s) == Encode(t)
    ensures s == t
  {
    EncodeRoundTrip(s);
    EncodeRoundTrip(t);
  }

  /** Strings made of unescaped characters pass through unchanged. */
  lemma {:induction false} EncodeUnescapedIdentity(s: string)
    requires forall k :: 0 <= k < |s| ==> Unescaped(s[k])
    ensures Encode(s) == s
  {
    if s != [] {
      EncodeUnescapedIdentity(s[1..]);
      assert [s[0]] + s[1..] == s;
    }
  }
}
