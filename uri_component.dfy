/** `encodeURIComponent` as ECMA-262 defines it (section 18.2.6.5 of the
    2015 edition): characters outside the unreserved set are written as the
    percent-escaped bytes of their UTF-8 encoding (RFC 3986 section 2.1,
    RFC 3629), with upper-case hexadecimal digits.  A decoder is given
    beside it so that the encoding can be shown to lose nothing. */
module UriComponent {
  import opened Wrappers

  /** The characters `encodeURIComponent` leaves as they are. */
  predicate IsUnescaped(c: char) {
    ('A' <= c <= 'Z') || ('a' <= c <= 'z') || ('0' <= c <= '9')
    || c == '-' || c == '_' || c == '.' || c == '!' || c == '~'
    || c == '*' || c == '\'' || c == '(' || c == ')'
  }

  predicate IsByte(b: int) { 0 <= b < 256 }

  /** The UTF-8 encoding of one character (RFC 3629 section 3). */
  function Utf8(c: char): (bytes: seq<int>)
    ensures 1 <= |bytes| <= 4
    ensures forall k :: 0 <= k < |bytes| ==> IsByte(bytes[k])
  {
    var cp := c as int;
    if cp < 0x80 then [cp]
    else if cp < 0x800 then [0xC0 + cp / 64, 0x80 + cp % 64]
    else if cp < 0x1_0000 then [0xE0 + cp / 4096, 0x80 + (cp / 64) % 64, 0x80 + cp % 64]
    else [0xF0 + cp / 262144, 0x80 + (cp / 4096) % 64, 0x80 + (cp / 64) % 64, 0x80 + cp % 64]
  }

  function HexDigit(d: int): char
    requires 0 <= d < 16
  {
    if d < 10 then ('0' as int + d) as char else ('A' as int + d - 10) as char
  }

  /** A byte as `%` followed by two upper-case hexadecimal digits. */
  function EscapeByte(b: int): (r: string)
    requires IsByte(b)
    ensures |r| == 3 && r[0] == '%'
  {
    ['%', HexDigit(b / 16), HexDigit(b % 16)]
  }

  function EscapeBytes(bytes: seq<int>): (r: string)
    requires forall k :: 0 <= k < |bytes| ==> IsByte(bytes[k])
    ensures |r| == 3 * |bytes|
    ensures forall k :: 0 <= k < |r| ==> IsUnescaped(r[k]) || r[k] == '%'
  {
    if bytes == [] then []
    else EscapeByte(bytes[0]) + EscapeBytes(bytes[1..])
  }

  function EncodeChar(c: char): string {
    if IsUnescaped(c) then [c] else EscapeBytes(Utf8(c))
  }

  /** `encodeURIComponent`. The result holds only unreserved characters and
      `%`, so none of the delimiters `/`, `+`, `?`, `&`, `=` or `#`. */
  function Encode(s: string): (r: string)
    ensures forall k :: 0 <= k < |r| ==> IsUnescaped(r[k]) || r[k] == '%'
  {
    if s == [] then [] else EncodeChar(s[0]) + Encode(s[1..])
  }

  function HexValue(c: char): Option<int> {
    if '0' <= c <= '9' then Some(c as int - '0' as int)
    else if 'A' <= c <= 'F' then Some(c as int - 'A' as int + 10)
    else if 'a' <= c <= 'f' then Some(c as int - 'a' as int + 10)
    else None
  }

  /** The byte escaped as the `k`-th `%XY` triple of `s`, if there is one. */
  function ByteAt(s: string, k: nat): Option<int> {
    if |s| >= 3 * k + 3 && s[3 * k] == '%' && HexValue(s[3 * k + 1]).Some? && HexValue(s[3 * k + 2]).Some?
    then Some(HexValue(s[3 * k + 1]).value * 16 + HexValue(s[3 * k + 2]).value)
    else None
  }

  /** The payload of a UTF-8 continuation byte escaped as the `k`-th triple. */
  function ContinuationAt(s: string, k: nat): Option<int> {
    var b := ByteAt(s, k);
    if b.Some? && 0x80 <= b.value < 0xC0 then Some(b.value - 0x80) else None
  }

  predicate IsScalar(cp: int) { 0 <= cp < 0xD800 || 0xE000 <= cp < 0x11_0000 }

  function ScalarChar(cp: int, width: nat): Option<(char, nat)> {
    if IsScalar(cp) then Some((cp as char, width)) else None
  }

  /** The character whose UTF-8 bytes are escaped at the start of `s`, and
      how many characters of `s` the escapes occupy. */
  function DecodeEscape(s: string): (r: Option<(char, nat)>)
    ensures r.Some? ==> 3 <= r.value.1 <= |s|
  {
    var lead := ByteAt(s, 0);
    if lead.None? then None
    else if lead.value < 0x80 then ScalarChar(lead.value, 3)
    else if 0xC0 <= lead.value < 0xE0 && ContinuationAt(s, 1).Some? then
      ScalarChar((lead.value - 0xC0) * 64 + ContinuationAt(s, 1).value, 6)
    else if 0xE0 <= lead.value < 0xF0 && ContinuationAt(s, 1).Some? && ContinuationAt(s, 2).Some? then
      ScalarChar(((lead.value - 0xE0) * 64 + ContinuationAt(s, 1).value) * 64
                 + ContinuationAt(s, 2).value, 9)
    else if 0xF0 <= lead.value < 0xF8 && ContinuationAt(s, 1).Some? && ContinuationAt(s, 2).Some?
            && ContinuationAt(s, 3).Some? then
      ScalarChar((((lead.value - 0xF0) * 64 + ContinuationAt(s, 1).value) * 64
                  + ContinuationAt(s, 2).value) * 64 + ContinuationAt(s, 3).value, 12)
    else None
  }

  /** Percent-decoding (the inverse the server applies). */
  function Decode(s: string): Option<string>
    decreases |s|
  {
    if s == [] then Some([])
    else if s[0] != '%' then
      match Decode(s[1..])
      case Some(t) => Some([s[0]] + t)
      case None => None
    else
      match DecodeEscape(s)
      case None => None
      case Some((c, n)) =>
        match Decode(s[n..])
        case Some(t) => Some([c] + t)
        case None => None
  }

  lemma HexRoundTrip(d: int)
    requires 0 <= d < 16
    ensures HexValue(HexDigit(d)) == Some(d)
  {
  }

  lemma {:induction false} EscapeBytesAt(bytes: seq<int>, rest: string, k: nat)
    requires forall i :: 0 <= i < |bytes| ==> IsByte(bytes[i])
    requires k < |bytes|
    ensures ByteAt(EscapeBytes(bytes) + rest, k) == Some(bytes[k])
  {
    var s := EscapeBytes(bytes) + rest;
    if k == 0 {
      HexRoundTrip(bytes[0] / 16);
      HexRoundTrip(bytes[0] % 16);
    } else {
      EscapeBytesAt(bytes[1..], rest, k - 1);
      var s' := EscapeBytes(bytes[1..]) + rest;
      assert s == EscapeBytes(bytes)[..3] + s';
      assert s[3 * k..] == s'[3 * (k - 1)..];
      assert s[3 * k] == s'[3 * (k - 1)];
      assert s[3 * k + 1] == s'[3 * (k - 1) + 1];
      assert s[3 * k + 2] == s'[3 * (k - 1) + 2];
    }
  }

  lemma TwoByteValue(cp: int)
    requires 0x80 <= cp < 0x800
    ensures (cp / 64) * 64 + cp % 64 == cp
    ensures 2 <= cp / 64 < 32
  {
  }

  lemma ThreeByteValue(cp: int)
    requires 0x800 <= cp < 0x1_0000
    ensures ((cp / 4096) * 64 + (cp / 64) % 64) * 64 + cp % 64 == cp
    ensures cp / 4096 < 16
  {
    var q := cp / 64;
    assert cp == q * 64 + cp % 64;
    assert q == (q / 64) * 64 + q % 64;
    assert q / 64 == cp / 4096;
  }

  lemma FourByteValue(cp: int)
    requires 0x1_0000 <= cp < 0x11_0000
    ensures (((cp / 262144) * 64 + (cp / 4096) % 64) * 64 + (cp / 64) % 64) * 64 + cp % 64 == cp
    ensures cp / 262144 < 8
  {
    var q := cp / 64;
    var p := q / 64;
    assert cp == q * 64 + cp % 64;
    assert q == p * 64 + q % 64;
    assert p == (p / 64) * 64 + p % 64;
    assert q / 64 == cp / 4096;
    assert p / 64 == cp / 262144;
  }

  lemma EscapesAt(c: char, rest: string, k: nat)
    requires !IsUnescaped(c) && k < |Utf8(c)|
    ensures ByteAt(EncodeChar(c) + rest, k) == Some(Utf8(c)[k])
  {
    EscapeBytesAt(Utf8(c), rest, k);
  }

  lemma DecodeOneByte(c: char, rest: string)
    requires !IsUnescaped(c) && c as int < 0x80
    ensures DecodeEscape(EncodeChar(c) + rest) == Some((c, 3))
  {
    EscapesAt(c, rest, 0);
  }

  lemma DecodeTwoBytes(c: char, rest: string)
    requires 0x80 <= c as int < 0x800
    ensures DecodeEscape(EncodeChar(c) + rest) == Some((c, 6))
  {
    var s, cp := EncodeChar(c) + rest, c as int;
    EscapesAt(c, rest, 0);
    EscapesAt(c, rest, 1);
    TwoByteValue(cp);
    assert ByteAt(s, 0) == Some(0xC0 + cp / 64);
    assert ContinuationAt(s, 1) == Some(cp % 64);
  }

  lemma DecodeThreeBytes(c: char, rest: string)
    requires 0x800 <= c as int < 0x1_0000
    ensures DecodeEscape(EncodeChar(c) + rest) == Some((c, 9))
  {
    var s, cp := EncodeChar(c) + rest, c as int;
    EscapesAt(c, rest, 0);
    EscapesAt(c, rest, 1);
    EscapesAt(c, rest, 2);
    ThreeByteValue(cp);
    assert ByteAt(s, 0) == Some(0xE0 + cp / 4096);
    assert ContinuationAt(s, 1) == Some((cp / 64) % 64);
    assert ContinuationAt(s, 2) == Some(cp % 64);
  }

  lemma DecodeFourBytes(c: char, rest: string)
    requires 0x1_0000 <= c as int
    ensures DecodeEscape(EncodeChar(c) + rest) == Some((c, 12))
  {
    var s, cp := EncodeChar(c) + rest, c as int;
    EscapesAt(c, rest, 0);
    EscapesAt(c, rest, 1);
    EscapesAt(c, rest, 2);
    EscapesAt(c, rest, 3);
    FourByteValue(cp);
    assert ByteAt(s, 0) == Some(0xF0 + cp / 262144);
    assert ContinuationAt(s, 1) == Some((cp / 4096) % 64);
    assert ContinuationAt(s, 2) == Some((cp / 64) % 64);
    assert ContinuationAt(s, 3) == Some(cp % 64);
  }

  /** The escapes written for one character decode back to it. */
  lemma DecodeEscapeOfChar(c: char, rest: string)
    requires !IsUnescaped(c)
    ensures DecodeEscape(EncodeChar(c) + rest) == Some((c, |EncodeChar(c)|))
  {
    var cp := c as int;
    if cp < 0x80 {
      DecodeOneByte(c, rest);
    } else if cp < 0x800 {
      DecodeTwoBytes(c, rest);
    } else if cp < 0x1_0000 {
      DecodeThreeBytes(c, rest);
    } else {
      DecodeFourBytes(c, rest);
    }
  }

  lemma DecodeEncodeChar(c: char, rest: string)
    ensures Decode(EncodeChar(c) + rest) ==
      match Decode(rest)
      case Some(t) => Some([c] + t)
      case None => None
  {
    var s := EncodeChar(c) + rest;
    if IsUnescaped(c) {
      assert s[1..] == rest;
    } else {
      DecodeEscapeOfChar(c, rest);
      assert s[0] == '%';
      assert s[|EncodeChar(c)|..] == rest;
    }
  }

  /** Encoding loses nothing: decoding an encoded string gives it back, so
      two different components never encode alike. */
  lemma {:induction false} DecodeEncode(s: string)
    ensures Decode(Encode(s)) == Some(s)
  {
    if s != [] {
      DecodeEncode(s[1..]);
      DecodeEncodeChar(s[0], Encode(s[1..]));
      assert [s[0]] + s[1..] == s;
    }
  }

  lemma EncodeInjective(a: string, b: string)
    requires Encode(a) == Encode(b)
    ensures a == b
  {
    DecodeEncode(a);
    DecodeEncode(b);
  }

  /** A component made only of unreserved characters is sent unchanged. */
  lemma {:induction false} EncodeUnescapedIdentity(s: string)
    requires forall k :: 0 <= k < |s| ==> IsUnescaped(s[k])
    ensures Encode(s) == s
  {
    if s != [] {
      EncodeUnescapedIdentity(s[1..]);
    }
  }
}
