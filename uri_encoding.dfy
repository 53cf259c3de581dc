/** ECMAScript `encodeURIComponent` (ECMA-262 5.1, section 15.1.3.4): every
    character outside the unreserved URI component set is written as the
    `%XY` escapes of its UTF-8 octets (RFC 3986, section 2.1, upper-case hex
    digits). Also the UTF-8 encoding that `new Buffer(s, 'utf8')` applies.
    Strings here are sequences of Unicode scalar values, so the URIError that
    the standard raises for a lone surrogate cannot arise. */
module UriEncoding {
  import opened Results
  import opened JsValues

  /** uriAlpha, DecimalDigit and uriMark (ECMA-262 5.1, section 15.1.3). */
  predicate Unreserved(c: char) {
    ('a' <= c <= 'z') || ('A' <= c <= 'Z') || ('0' <= c <= '9') ||
    c == '-' || c == '_' || c == '.' || c == '!' || c == '~' || c == '*' ||
    c == '\'' || c == '(' || c == ')'
  }

  /** The characters `encodeURIComponent` can produce. */
  predicate UriSafe(c: char) {
    Unreserved(c) || c == '%'
  }

  /** The UTF-8 octets of one Unicode scalar value. */
  function Utf8(c: char): seq<byte> {
    var cp := c as int;
    if cp < 0x80 then [cp as byte]
    else if cp < 0x800 then [(0xC0 + cp / 64) as byte, (0x80 + cp % 64) as byte]
    else if cp < 0x10000 then
      [(0xE0 + cp / 4096) as byte, (0x80 + (cp / 64) % 64) as byte, (0x80 + cp % 64) as byte]
    else
      [(0xF0 + cp / 262144) as byte, (0x80 + (cp / 4096) % 64) as byte,
       (0x80 + (cp / 64) % 64) as byte, (0x80 + cp % 64) as byte]
  }

  /** `new Buffer(s, 'utf8')` */
  function Utf8Encode(s: string): seq<byte> {
    if s == [] then [] else Utf8(s[0]) + Utf8Encode(s[1..])
  }

  function HexDigit(d: nat): char
    requires d < 16
  {
    "0123456789ABCDEF"[d]
  }

  /** `%XY` for the octet `b`. */
  function PercentByte(b: byte): string {
    ['%', HexDigit(b as int / 16), HexDigit(b as int % 16)]
  }

  function PercentBytes(bs: seq<byte>): string {
    if bs == [] then [] else PercentByte(bs[0]) + PercentBytes(bs[1..])
  }

  lemma {:induction false} PercentBytesSafe(bs: seq<byte>)
    ensures forall c :: c in PercentBytes(bs) ==> UriSafe(c)
  {
    if bs != [] {
      PercentBytesSafe(bs[1..]);
      var hi, lo := bs[0] as int / 16, bs[0] as int % 16;
      assert Unreserved(HexDigit(hi)) && Unreserved(HexDigit(lo));
    }
  }

  function EncodeChar(c: char): string {
    if Unreserved(c) then [c] else PercentBytes(Utf8(c))
  }

  /** `encodeURIComponent(s)` */
  function EncodeUriComponent(s: string): string
    decreases |s|, 1
  {
    if s == [] then [] else EncodeFrom(s)
  }

  /** The escape of the first character of `s`, then the encoding of the rest. */
  function EncodeFrom(s: string): string
    requires s != []
    decreases |s|, 0
  {
    EncodeChar(s[0]) + EncodeUriComponent(s[1..])
  }

  /** Only unreserved characters and `%` escapes come out. */
  lemma {:induction false} EncodedIsSafe(s: string)
    ensures forall c :: c in EncodeUriComponent(s) ==> UriSafe(c)
  {
    if s != [] {
      EncodedIsSafe(s[1..]);
      if !Unreserved(s[0]) {
        PercentBytesSafe(Utf8(s[0]));
      }
    }
  }

  /** The separators the library puts between encoded names and values never
      occur inside an encoded component. */
  lemma EncodedHasNoSeparators(s: string)
    ensures '&' !in EncodeUriComponent(s)
    ensures '=' !in EncodeUriComponent(s)
    ensures '?' !in EncodeUriComponent(s)
  {
    EncodedIsSafe(s);
    assert !UriSafe('&') && !UriSafe('=') && !UriSafe('?');
  }

  /** A string of unreserved characters is its own encoding. */
  lemma {:induction false} EncodeUnreserved(s: string)
    requires forall i :: 0 <= i < |s| ==> Unreserved(s[i])
    ensures EncodeUriComponent(s) == s
  {
    if s != [] {
      EncodeUnreserved(s[1..]);
    }
  }

  /** Encoding works character by character. */
  lemma {:induction false} EncodeConcat(a: string, b: string)
    ensures EncodeUriComponent(a + b) == EncodeUriComponent(a) + EncodeUriComponent(b)
  {
    if a != [] {
      assert (a + b)[0] == a[0];
      assert (a + b)[1..] == a[1..] + b;
      EncodeConcat(a[1..], b);
    } else {
      assert a + b == b;
    }
  }

  // A partial inverse: percent-decoding back to octets, for the round trip.

  function HexValue(c: char): Option<nat> {
    if '0' <= c <= '9' then Some(c as int - '0' as int)
    else if 'A' <= c <= 'F' then Some(c as int - 'A' as int + 10)
    else if 'a' <= c <= 'f' then Some(c as int - 'a' as int + 10)
    else None
  }

  function Prepend(bs: seq<byte>, rest: Option<seq<byte>>): Option<seq<byte>> {
    match rest
    case None => None
    case Some(tail) => Some(bs + tail)
  }

  /** The octets a percent-encoded ASCII string stands for; `None` when the
      string holds a malformed escape or a non-ASCII character. */
  function PercentDecode(s: string): Option<seq<byte>>
    decreases |s|
  {
    if s == [] then Some([])
    else if s[0] == '%' then
      if |s| >= 3 && HexValue(s[1]).Some? && HexValue(s[2]).Some? &&
         HexValue(s[1]).value * 16 + HexValue(s[2]).value < 256
      then Prepend([(HexValue(s[1]).value * 16 + HexValue(s[2]).value) as byte], PercentDecode(s[3..]))
      else None
    else if (s[0] as int) < 0x80 then Prepend([s[0] as int as byte], PercentDecode(s[1..]))
    else None
  }

  lemma HexRoundTrip(d: nat)
    requires d < 16
    ensures HexValue(HexDigit(d)) == Some(d)
  {
  }

  lemma DecodePercentByte(b: byte, tail: string)
    ensures PercentDecode(PercentByte(b) + tail) == Prepend([b], PercentDecode(tail))
  {
    var s := PercentByte(b) + tail;
    var hi, lo := b as int / 16, b as int % 16;
    HexRoundTrip(hi);
    HexRoundTrip(lo);
    assert s[0] == '%' && s[1] == HexDigit(hi) && s[2] == HexDigit(lo);
    assert s[3..] == tail;
    assert hi * 16 + lo == b as int;
  }

  lemma {:induction false} DecodePercentBytes(bs: seq<byte>, rest: string)
    ensures PercentDecode(PercentBytes(bs) + rest) == Prepend(bs, PercentDecode(rest))
  {
    if bs != [] {
      var tail := PercentBytes(bs[1..]) + rest;
      assert PercentBytes(bs) + rest == PercentByte(bs[0]) + tail;
      DecodePercentByte(bs[0], tail);
      DecodePercentBytes(bs[1..], rest);
      assert [bs[0]] + bs[1..] == bs;
      if PercentDecode(rest).Some? {
        assert [bs[0]] + (bs[1..] + PercentDecode(rest).value) == bs + PercentDecode(rest).value;
      }
    } else {
      assert PercentBytes(bs) + rest == rest;
      if PercentDecode(rest).Some? {
        assert [] + PercentDecode(rest).value == PercentDecode(rest).value;
      }
    }
  }

  /** Round trip: percent-decoding `encodeURIComponent(s)` gives exactly the
      UTF-8 octets of `s`, so the encoding loses nothing. */
  lemma {:induction false} DecodeEncode(s: string)
    ensures PercentDecode(EncodeUriComponent(s)) == Some(Utf8Encode(s))
  {
    if s != [] {
      var c := s[0];
      var rest := EncodeUriComponent(s[1..]);
      DecodeEncode(s[1..]);
      if Unreserved(c) {
        var e := [c] + rest;
        assert e[0] == c && e[1..] == rest;
      } else {
        DecodePercentBytes(Utf8(c), rest);
      }
    }
  }

  /** `encodeURIComponent('bäz')` is `'b%C3%A4z'`. */
  lemma EncodeExample()
    ensures EncodeUriComponent("bäz") == "b%C3%A4z"
  {
    assert Utf8('ä') == [0xC3, 0xA4];
    assert PercentBytes([0xC3, 0xA4]) == "%C3%A4";
    assert EncodeUriComponent("z") == "z";
    assert EncodeUriComponent("äz") == "%C3%A4" + "z";
  }
}
