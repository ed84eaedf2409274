/** The byte-level encodings the client applies to strings: UTF-8
    (`str.encode("utf-8")`), base64 as defined in section 4 of RFC 4648
    (`base64.b64encode`), and the form encoding of `urllib.parse.quote_plus`.
    Each comes with its decoder and a proof that decoding undoes encoding. */
module Codecs {
  import opened Python

  type byte = x: int | 0 <= x < 256

  // ---------------------------------------------------------------------------
  // UTF-8

  predicate IsContinuation(x: byte) { 0x80 <= x < 0xC0 }

  /** The UTF-8 bytes of one code point. */
  function Utf8Char(c: char): (r: seq<byte>)
    ensures 1 <= |r| <= 4
    ensures |r| == 1 <==> c as int < 0x80
    ensures |r| == 1 ==> r[0] == c as int
  {
    var n := c as int;
    var q1, r0 := n / 64, n % 64;
    var q2, r1 := q1 / 64, q1 % 64;
    var q3, r2 := q2 / 64, q2 % 64;
    if n < 0x80 then [n]
    else if n < 0x800 then [0xC0 + q1, 0x80 + r0]
    else if n < 0x10000 then [0xE0 + q2, 0x80 + r1, 0x80 + r0]
    else [0xF0 + q3, 0x80 + r2, 0x80 + r1, 0x80 + r0]
  }

  /** `s.encode("utf-8")`. */
  function Utf8Encode(s: string): (r: seq<byte>)
    ensures |r| >= |s|
  {
    if s == [] then [] else Utf8Char(s[0]) + Utf8Encode(s[1..])
  }

  /** Decodes the first code point of `b`: the character and the number of bytes
      it took. Overlong forms, surrogates and values past U+10FFFF are refused. */
  function Utf8First(b: seq<byte>): (r: Option<(char, nat)>)
    requires b != []
    ensures r.Some? ==> 1 <= r.value.1 <= |b|
  {
    var lead: int := b[0];
    var b1: int := if |b| >= 2 then b[1] else 0;
    var b2: int := if |b| >= 3 then b[2] else 0;
    var b3: int := if |b| >= 4 then b[3] else 0;
    if lead < 0x80 then Some((lead as char, 1))
    else if 0xC2 <= lead < 0xE0 && |b| >= 2 && IsContinuation(b[1]) then
      var v := (lead - 0xC0) * 64 + (b1 - 0x80);
      Some((v as char, 2))
    else if 0xE0 <= lead < 0xF0 && |b| >= 3 && IsContinuation(b[1]) && IsContinuation(b[2]) then
      var v := ((lead - 0xE0) * 64 + (b1 - 0x80)) * 64 + (b2 - 0x80);
      if v < 0x800 || (0xD800 <= v < 0xE000) then None else Some((v as char, 3))
    else if 0xF0 <= lead < 0xF5 && |b| >= 4 && IsContinuation(b[1]) && IsContinuation(b[2])
            && IsContinuation(b[3]) then
      var v := (((lead - 0xF0) * 64 + (b1 - 0x80)) * 64 + (b2 - 0x80)) * 64 + (b3 - 0x80);
      if v < 0x10000 || v >= 0x110000 then None else Some((v as char, 4))
    else None
  }

  /** `b.decode("utf-8")`, or `None` where Python would raise. */
  function Utf8Decode(b: seq<byte>): Option<string>
    decreases |b|
  {
    if b == [] then Some("")
    else
      var (c, k) :- Utf8First(b);
      var rest :- Utf8Decode(b[k..]);
      Some([c] + rest)
  }

  /** `b.decode("utf-8", errors="ignore")`: what cannot start a code point is
      dropped one byte at a time. A continuation byte never starts one, so this
      drops the same bytes as Python's skipping of maximal invalid subparts. */
  function Utf8DecodeLenient(b: seq<byte>): (r: string)
    ensures |r| <= |b|
    decreases |b|
  {
    if b == [] then ""
    else
      match Utf8First(b)
      case Some((c, k)) => [c] + Utf8DecodeLenient(b[k..])
      case None => Utf8DecodeLenient(b[1..])
  }

  /** On well-formed UTF-8 the lenient decoding is the strict one. */
  lemma {:induction false} LenientAgreesWithStrict(b: seq<byte>)
    requires Utf8Decode(b).Some?
    ensures Utf8DecodeLenient(b) == Utf8Decode(b).value
    decreases |b|
  {
    if b != [] {
      var (c, k) := Utf8First(b).value;
      LenientAgreesWithStrict(b[k..]);
    }
  }

  lemma Utf8FirstOfChar(c: char, rest: seq<byte>)
    ensures Utf8First(Utf8Char(c) + rest) == Some((c, |Utf8Char(c)|))
  {
    var n := c as int;
    var b := Utf8Char(c) + rest;
    var q1, r0 := n / 64, n % 64;
    var q2, r1 := q1 / 64, q1 % 64;
    var q3, r2 := q2 / 64, q2 % 64;
    if n < 0x80 {
    } else if n < 0x800 {
      assert b[0] == 0xC0 + q1 && b[1] == 0x80 + r0;
      assert q1 * 64 + r0 == n;
    } else if n < 0x10000 {
      assert b[0] == 0xE0 + q2 && b[1] == 0x80 + r1 && b[2] == 0x80 + r0;
      assert (q2 * 64 + r1) * 64 + r0 == n;
    } else {
      assert b[0] == 0xF0 + q3 && b[1] == 0x80 + r2 && b[2] == 0x80 + r1 && b[3] == 0x80 + r0;
      assert ((q3 * 64 + r2) * 64 + r1) * 64 + r0 == n;
    }
  }

  /** Decoding the UTF-8 bytes of a string gives the string back. */
  lemma {:induction false} Utf8RoundTrip(s: string)
    ensures Utf8Decode(Utf8Encode(s)) == Some(s)
    decreases |s|
  {
    if s != [] {
      var head := Utf8Char(s[0]);
      var b := Utf8Encode(s);
      Utf8FirstOfChar(s[0], Utf8Encode(s[1..]));
      assert b[|head|..] == Utf8Encode(s[1..]);
      Utf8RoundTrip(s[1..]);
      assert s == [s[0]] + s[1..];
    }
  }

  lemma {:induction false} Utf8EncodeAppend(s: string, t: string)
    ensures Utf8Encode(s + t) == Utf8Encode(s) + Utf8Encode(t)
    decreases |s|
  {
    if s != [] {
      assert (s + t)[1..] == s[1..] + t;
      Utf8EncodeAppend(s[1..], t);
    } else {
      assert s + t == t;
    }
  }

  // ---------------------------------------------------------------------------
  // Base64, section 4 of RFC 4648

  /** The character for a 6-bit value: A-Z, a-z, 0-9, '+', '/'. */
  function Base64Char(i: int): (c: char)
    requires 0 <= i < 64
  {
    if i < 26 then ('A' as int + i) as char
    else if i < 52 then ('a' as int + i - 26) as char
    else if i < 62 then ('0' as int + i - 52) as char
    else if i == 62 then '+'
    else '/'
  }

  /** The 6-bit value of an alphabet character; `None` for anything else,
      the pad character '=' included. */
  function Base64Value(c: char): (r: Option<int>)
    ensures r.Some? ==> 0 <= r.value < 64
  {
    if 'A' <= c <= 'Z' then Some(c as int - 'A' as int)
    else if 'a' <= c <= 'z' then Some(c as int - 'a' as int + 26)
    else if '0' <= c <= '9' then Some(c as int - '0' as int + 52)
    else if c == '+' then Some(62)
    else if c == '/' then Some(63)
    else None
  }

  predicate IsBase64Char(c: char) { Base64Value(c).Some? }

  lemma Base64ValueOfChar(i: int)
    requires 0 <= i < 64
    ensures Base64Value(Base64Char(i)) == Some(i)
  {
  }

  predicate IsBase64Text(s: string) {
    forall k :: 0 <= k < |s| ==> IsBase64Char(s[k]) || s[k] == '='
  }

  /** The four characters for three bytes. */
  function EncodeTriple(b0: byte, b1: byte, b2: byte): (r: string)
    ensures |r| == 4 && IsBase64Text(r)
  {
    Base64ValueOfChar(b0 / 4);
    Base64ValueOfChar((b0 % 4) * 16 + b1 / 16);
    Base64ValueOfChar((b1 % 16) * 4 + b2 / 64);
    Base64ValueOfChar(b2 % 64);
    [Base64Char(b0 / 4), Base64Char((b0 % 4) * 16 + b1 / 16),
     Base64Char((b1 % 16) * 4 + b2 / 64), Base64Char(b2 % 64)]
  }

  /** The final group for two leftover bytes: three characters and one '='. */
  function EncodePair(b0: byte, b1: byte): (r: string)
    ensures |r| == 4 && IsBase64Text(r)
  {
    Base64ValueOfChar(b0 / 4);
    Base64ValueOfChar((b0 % 4) * 16 + b1 / 16);
    Base64ValueOfChar((b1 % 16) * 4);
    [Base64Char(b0 / 4), Base64Char((b0 % 4) * 16 + b1 / 16), Base64Char((b1 % 16) * 4), '=']
  }

  /** The final group for one leftover byte: two characters and "==". */
  function EncodeSingle(b0: byte): (r: string)
    ensures |r| == 4 && IsBase64Text(r)
  {
    Base64ValueOfChar(b0 / 4);
    Base64ValueOfChar((b0 % 4) * 16);
    [Base64Char(b0 / 4), Base64Char((b0 % 4) * 16), '=', '=']
  }

  /** `base64.b64encode`: whole groups of three bytes, then a final group of one
      or two bytes padded with '='. */
  function Base64Encode(b: seq<byte>): (r: string)
    ensures |r| == 4 * ((|b| + 2) / 3)
    ensures IsBase64Text(r)
    decreases |b|
  {
    if |b| == 0 then ""
    else if |b| == 1 then EncodeSingle(b[0])
    else if |b| == 2 then EncodePair(b[0], b[1])
    else
      var head := EncodeTriple(b[0], b[1], b[2]);
      var tail := Base64Encode(b[3..]);
      Base64TextAppend(head, tail);
      assert (|b| + 2) / 3 == (|b[3..]| + 2) / 3 + 1;
      head + tail
  }

  lemma Base64TextAppend(a: string, b: string)
    requires IsBase64Text(a) && IsBase64Text(b)
    ensures IsBase64Text(a + b)
  {
    forall k | 0 <= k < |a + b| ensures IsBase64Char((a + b)[k]) || (a + b)[k] == '=' {
      if k >= |a| {
        assert (a + b)[k] == b[k - |a|];
      }
    }
  }

  /** Decodes one group of four characters; padding is accepted only in the
      final group, and only after a character whose unused low bits are zero
      (section 3.5 of RFC 4648), so that each byte string has one text. */
  function DecodeQuad(q: string, last: bool): Option<seq<byte>>
    requires |q| == 4
  {
    var c0 :- Base64Value(q[0]);
    var c1 :- Base64Value(q[1]);
    if last && q[2] == '=' && q[3] == '=' then
      if c1 % 16 != 0 then None else Some([c0 * 4 + c1 / 16])
    else
      var c2 :- Base64Value(q[2]);
      if last && q[3] == '=' then
        if c2 % 4 != 0 then None else Some([c0 * 4 + c1 / 16, (c1 % 16) * 16 + c2 / 4])
      else
        var c3 :- Base64Value(q[3]);
        Some([c0 * 4 + c1 / 16, (c1 % 16) * 16 + c2 / 4, (c2 % 4) * 64 + c3])
  }

  /** Base64 decoding of a text whose length is a multiple of four. */
  function Base64Decode(s: string): Option<seq<byte>>
    decreases |s|
  {
    if s == [] then Some([])
    else if |s| < 4 then None
    else
      var head :- DecodeQuad(s[..4], |s| == 4);
      var rest :- Base64Decode(s[4..]);
      Some(head + rest)
  }

  lemma DecodeTriple(b0: byte, b1: byte, b2: byte, last: bool)
    ensures DecodeQuad(EncodeTriple(b0, b1, b2), last) == Some([b0, b1, b2])
  {
    var c0, c1, c2, c3 := b0 / 4, (b0 % 4) * 16 + b1 / 16, (b1 % 16) * 4 + b2 / 64, b2 % 64;
    Base64ValueOfChar(c0);
    Base64ValueOfChar(c1);
    Base64ValueOfChar(c2);
    Base64ValueOfChar(c3);
    assert c1 / 16 == b0 % 4 && c1 % 16 == b1 / 16;
    assert c2 / 4 == b1 % 16 && c2 % 4 == b2 / 64;
  }

  lemma DecodePair(b0: byte, b1: byte)
    ensures DecodeQuad(EncodePair(b0, b1), true) == Some([b0, b1])
  {
    var c0, c1, c2 := b0 / 4, (b0 % 4) * 16 + b1 / 16, (b1 % 16) * 4;
    Base64ValueOfChar(c0);
    Base64ValueOfChar(c1);
    Base64ValueOfChar(c2);
    assert c1 / 16 == b0 % 4 && c1 % 16 == b1 / 16 && c2 / 4 == b1 % 16;
  }

  lemma DecodeSingle(b0: byte)
    ensures DecodeQuad(EncodeSingle(b0), true) == Some([b0])
  {
    var c0, c1 := b0 / 4, (b0 % 4) * 16;
    Base64ValueOfChar(c0);
    Base64ValueOfChar(c1);
    assert c1 / 16 == b0 % 4;
  }

  /** Decoding a text that is one final group. */
  lemma DecodeOnlyQuad(q: string, bytes: seq<byte>)
    requires |q| == 4 && DecodeQuad(q, true) == Some(bytes)
    ensures Base64Decode(q) == Some(bytes)
  {
    assert q[..4] == q && q[4..] == [];
    assert bytes + [] == bytes;
  }

  /** Decoding a text that starts with a whole group and goes on. */
  lemma DecodeFirstQuad(q: string, rest: string, bytes: seq<byte>, tail: seq<byte>)
    requires |q| == 4 && rest != [] && DecodeQuad(q, false) == Some(bytes)
    requires Base64Decode(rest) == Some(tail)
    ensures Base64Decode(q + rest) == Some(bytes + tail)
  {
    var s := q + rest;
    assert s[..4] == q && s[4..] == rest;
  }

  lemma Base64RoundTripOne(b: seq<byte>)
    requires |b| == 1
    ensures Base64Decode(Base64Encode(b)) == Some(b)
  {
    DecodeSingle(b[0]);
    DecodeOnlyQuad(EncodeSingle(b[0]), [b[0]]);
    assert Base64Encode(b) == EncodeSingle(b[0]);
    assert [b[0]] == b;
  }

  lemma Base64RoundTripTwo(b: seq<byte>)
    requires |b| == 2
    ensures Base64Decode(Base64Encode(b)) == Some(b)
  {
    DecodePair(b[0], b[1]);
    DecodeOnlyQuad(EncodePair(b[0], b[1]), [b[0], b[1]]);
    assert Base64Encode(b) == EncodePair(b[0], b[1]);
    assert [b[0], b[1]] == b;
  }

  lemma Base64RoundTripThree(b: seq<byte>)
    requires |b| == 3
    ensures Base64Decode(Base64Encode(b)) == Some(b)
  {
    DecodeTriple(b[0], b[1], b[2], true);
    DecodeOnlyQuad(EncodeTriple(b[0], b[1], b[2]), [b[0], b[1], b[2]]);
    assert Base64Encode(b[3..]) == "";
    assert Base64Encode(b) == EncodeTriple(b[0], b[1], b[2]) + "";
    assert [b[0], b[1], b[2]] == b;
  }

  /** Decoding the base64 text of a byte string gives the bytes back. */
  lemma {:induction false} Base64RoundTrip(b: seq<byte>)
    ensures Base64Decode(Base64Encode(b)) == Some(b)
    decreases |b|
  {
    if |b| == 1 {
      Base64RoundTripOne(b);
    } else if |b| == 2 {
      Base64RoundTripTwo(b);
    } else if |b| == 3 {
      Base64RoundTripThree(b);
    } else if |b| > 3 {
      DecodeTriple(b[0], b[1], b[2], false);
      Base64RoundTrip(b[3..]);
      DecodeFirstQuad(EncodeTriple(b[0], b[1], b[2]), Base64Encode(b[3..]), [b[0], b[1], b[2]], b[3..]);
      assert [b[0], b[1], b[2]] + b[3..] == b;
    }
  }

  lemma CharOfBase64Value(c: char, v: int)
    requires Base64Value(c) == Some(v)
    ensures Base64Char(v) == c
  {
  }

  /** A final group read as one byte is that byte's encoding. */
  lemma QuadOfSingle(q: string, h: seq<byte>)
    requires |q| == 4 && DecodeQuad(q, true) == Some(h) && q[2] == '=' && q[3] == '='
    ensures |h| == 1 && q == EncodeSingle(h[0])
  {
    var c0, c1 := Base64Value(q[0]).value, Base64Value(q[1]).value;
    CharOfBase64Value(q[0], c0);
    CharOfBase64Value(q[1], c1);
    assert h[0] / 4 == c0 && (h[0] % 4) * 16 == c1;
  }

  /** A final group read as two bytes is their encoding. */
  lemma QuadOfPair(q: string, h: seq<byte>)
    requires |q| == 4 && DecodeQuad(q, true) == Some(h) && !(q[2] == '=' && q[3] == '=') && q[3] == '='
    ensures |h| == 2 && q == EncodePair(h[0], h[1])
  {
    var c0, c1, c2 := Base64Value(q[0]).value, Base64Value(q[1]).value, Base64Value(q[2]).value;
    CharOfBase64Value(q[0], c0);
    CharOfBase64Value(q[1], c1);
    CharOfBase64Value(q[2], c2);
    assert h[0] / 4 == c0 && (h[0] % 4) * 16 + h[1] / 16 == c1 && (h[1] % 16) * 4 == c2;
  }

  /** A group read as three bytes is their encoding. */
  lemma QuadOfTriple(q: string, last: bool, h: seq<byte>)
    requires |q| == 4 && DecodeQuad(q, last) == Some(h)
    requires !(last && q[3] == '=')
    ensures |h| == 3 && q == EncodeTriple(h[0], h[1], h[2])
  {
    var c0, c1 := Base64Value(q[0]).value, Base64Value(q[1]).value;
    var c2, c3 := Base64Value(q[2]).value, Base64Value(q[3]).value;
    CharOfBase64Value(q[0], c0);
    CharOfBase64Value(q[1], c1);
    CharOfBase64Value(q[2], c2);
    CharOfBase64Value(q[3], c3);
    assert h[0] / 4 == c0 && (h[0] % 4) * 16 + h[1] / 16 == c1;
    assert (h[1] % 16) * 4 + h[2] / 64 == c2 && h[2] % 64 == c3;
  }

  /** The decoder accepts only canonical text: a text that decodes to `b` is the
      encoding of `b`, so `Base64Encode` is the one text for each byte string. */
  lemma {:induction false} Base64DecodeOnlyReadsEncoding(t: string, b: seq<byte>)
    requires Base64Decode(t) == Some(b)
    ensures t == Base64Encode(b)
    decreases |t|
  {
    if t != [] {
      var q := t[..4];
      var h := DecodeQuad(q, |t| == 4).value;
      var rest := Base64Decode(t[4..]).value;
      assert b == h + rest;
      if |t| == 4 && q[2] == '=' && q[3] == '=' {
        QuadOfSingle(q, h);
        assert rest == [] && t == q;
      } else if |t| == 4 && q[3] == '=' {
        QuadOfPair(q, h);
        assert rest == [] && t == q;
      } else {
        QuadOfTriple(q, |t| == 4, h);
        Base64DecodeOnlyReadsEncoding(t[4..], rest);
        assert b[3..] == rest;
        assert t == q + t[4..];
      }
    }
  }

  // ---------------------------------------------------------------------------
  // Form encoding, as urllib.parse.quote_plus does it with no extra safe characters

  /** Bytes `quote_plus` never escapes: ASCII letters, digits and "_.-~". */
  predicate IsAlwaysSafe(x: byte) {
    ('A' as int <= x <= 'Z' as int) || ('a' as int <= x <= 'z' as int)
    || ('0' as int <= x <= '9' as int)
    || x == '_' as int || x == '.' as int || x == '-' as int || x == '~' as int
  }

  function HexUpper(d: int): (c: char)
    requires 0 <= d < 16
  {
    if d < 10 then ('0' as int + d) as char else ('A' as int + d - 10) as char
  }

  function HexValue(c: char): Option<int> {
    if '0' <= c <= '9' then Some(c as int - '0' as int)
    else if 'A' <= c <= 'F' then Some(c as int - 'A' as int + 10)
    else if 'a' <= c <= 'f' then Some(c as int - 'a' as int + 10)
    else None
  }

  /** One byte of `quote_plus`'s output: itself if safe, '+' for a space,
      otherwise '%' and two upper-case hexadecimal digits. */
  function QuoteByte(x: byte): (r: string)
    ensures '&' !in r && '=' !in r && '?' !in r
  {
    if IsAlwaysSafe(x) then [x as char]
    else if x == 0x20 then "+"
    else ['%', HexUpper(x / 16), HexUpper(x % 16)]
  }

  function QuoteBytes(b: seq<byte>): (r: string)
    ensures '&' !in r && '=' !in r && '?' !in r
  {
    if b == [] then "" else QuoteByte(b[0]) + QuoteBytes(b[1..])
  }

  /** `urllib.parse.quote_plus(s)`. */
  function QuotePlus(s: string): (r: string)
    ensures '&' !in r && '=' !in r && '?' !in r
  {
    QuoteBytes(Utf8Encode(s))
  }

  /** The bytes that `unquote_plus` reads from a text: '+' is a space, '%' and
      two hexadecimal digits is one byte, and any other character stands for
      its own UTF-8 bytes. */
  function UnquoteBytes(t: string): seq<byte>
    decreases |t|
  {
    if t == [] then []
    else if t[0] == '+' then [0x20] + UnquoteBytes(t[1..])
    else if t[0] == '%' && |t| >= 3 && HexValue(t[1]).Some? && HexValue(t[2]).Some? then
      [HexValue(t[1]).value * 16 + HexValue(t[2]).value] + UnquoteBytes(t[3..])
    else Utf8Char(t[0]) + UnquoteBytes(t[1..])
  }

  /** `urllib.parse.unquote_plus(t)`, with `None` for bytes that are not UTF-8. */
  function UnquotePlus(t: string): Option<string> {
    Utf8Decode(UnquoteBytes(t))
  }

  lemma UnquoteQuotedByte(x: byte, rest: string)
    ensures UnquoteBytes(QuoteByte(x) + rest) == [x] + UnquoteBytes(rest)
  {
    var t := QuoteByte(x) + rest;
    if IsAlwaysSafe(x) {
      assert t[1..] == rest;
    } else if x == 0x20 {
      assert t[1..] == rest;
    } else {
      assert HexValue(HexUpper(x / 16)) == Some(x / 16);
      assert HexValue(HexUpper(x % 16)) == Some(x % 16);
      assert t[3..] == rest;
    }
  }

  lemma {:induction false} UnquoteQuoteBytes(b: seq<byte>)
    ensures UnquoteBytes(QuoteBytes(b)) == b
    decreases |b|
  {
    if b != [] {
      UnquoteQuotedByte(b[0], QuoteBytes(b[1..]));
      UnquoteQuoteBytes(b[1..]);
      assert b == [b[0]] + b[1..];
    }
  }

  /** `unquote_plus(quote_plus(s)) == s` for every string. */
  lemma QuotePlusRoundTrip(s: string)
    ensures UnquotePlus(QuotePlus(s)) == Some(s)
  {
    UnquoteQuoteBytes(Utf8Encode(s));
    Utf8RoundTrip(s);
  }

  /** Text made only of always-safe ASCII characters. */
  predicate SafeText(s: string) {
    s == [] || (s[0] as int < 0x80 && IsAlwaysSafe(s[0] as int) && SafeText(s[1..]))
  }

  /** Text made only of always-safe ASCII characters is left as it is. */
  lemma {:induction false} QuotePlusOfSafeText(s: string)
    requires SafeText(s)
    ensures QuotePlus(s) == s
    decreases |s|
  {
    if s != [] {
      QuotePlusOfSafeText(s[1..]);
      assert Utf8Encode(s) == [s[0] as int] + Utf8Encode(s[1..]);
      assert s == [s[0]] + s[1..];
    }
  }

  // ---------------------------------------------------------------------------
  // Query strings

  /** One `key=value` field of a query string, both sides form-encoded. */
  function QueryField(pair: (string, string)): (r: string)
    ensures '&' !in r && '?' !in r
  {
    QuotePlus(pair.0) + "=" + QuotePlus(pair.1)
  }

  /** `urllib.parse.urlencode(pairs)` for string values: the fields in order,
      joined by '&'. */
  function Urlencode(pairs: seq<(string, string)>): (r: string)
    ensures '?' !in r
  {
    JoinAvoids(QueryFields(pairs), "&", '?');
    Join(QueryFields(pairs), "&")
  }

  /** The encoded field of each pair, in order. */
  function QueryFields(pairs: seq<(string, string)>): (r: seq<string>)
    ensures |r| == |pairs| && forall i :: 0 <= i < |pairs| ==> r[i] == QueryField(pairs[i])
  {
    seq(|pairs|, i requires 0 <= i < |pairs| => QueryField(pairs[i]))
  }

  lemma {:induction false} JoinAvoids(parts: seq<string>, sep: string, c: char)
    requires c !in sep && forall i :: 0 <= i < |parts| ==> c !in parts[i]
    ensures c !in Join(parts, sep)
    decreases |parts|
  {
    if |parts| > 1 {
      JoinAvoids(parts[1..], sep, c);
    }
  }

  /** Reads `key=value` fields back, undoing the form encoding on both sides;
      `None` when a field has no '=' or does not decode. */
  function ParseFields(fields: seq<string>): Option<seq<(string, string)>>
    decreases |fields|
  {
    if fields == [] then Some([])
    else
      var (k, v) :- SplitFirst(fields[0], '=');
      var key :- UnquotePlus(k);
      var value :- UnquotePlus(v);
      var rest :- ParseFields(fields[1..]);
      Some([(key, value)] + rest)
  }

  /** Reads a query string back into its pairs, keeping blank values. */
  function ParseQuery(query: string): Option<seq<(string, string)>> {
    ParseFields(Split(query, '&'))
  }

  /** One field splits at its '=' and both sides decode back. */
  lemma ParseOneField(pair: (string, string))
    ensures SplitFirst(QueryField(pair), '=') == Some((QuotePlus(pair.0), QuotePlus(pair.1)))
    ensures UnquotePlus(QuotePlus(pair.0)) == Some(pair.0)
    ensures UnquotePlus(QuotePlus(pair.1)) == Some(pair.1)
  {
    SplitFirstAt(QuotePlus(pair.0), '=', QuotePlus(pair.1));
    QuotePlusRoundTrip(pair.0);
    QuotePlusRoundTrip(pair.1);
  }

  lemma {:induction false} ParseQueryFields(pairs: seq<(string, string)>)
    ensures ParseFields(QueryFields(pairs)) == Some(pairs)
    decreases |pairs|
  {
    if pairs != [] {
      var fields := QueryFields(pairs);
      assert fields[1..] == QueryFields(pairs[1..]);
      ParseQueryFields(pairs[1..]);
      ParseOneField(pairs[0]);
      ParseFieldsStep(fields, pairs[0], pairs[1..]);
      assert pairs == [pairs[0]] + pairs[1..];
    }
  }

  lemma ParseFieldsStep(fields: seq<string>, pair: (string, string), rest: seq<(string, string)>)
    requires fields != []
    requires SplitFirst(fields[0], '=') == Some((QuotePlus(pair.0), QuotePlus(pair.1)))
    requires UnquotePlus(QuotePlus(pair.0)) == Some(pair.0)
    requires UnquotePlus(QuotePlus(pair.1)) == Some(pair.1)
    requires ParseFields(fields[1..]) == Some(rest)
    ensures ParseFields(fields) == Some([pair] + rest)
  {
  }

  /** A non-empty query string gives back the pairs it was encoded from. */
  lemma UrlencodeRoundTrip(pairs: seq<(string, string)>)
    requires pairs != []
    ensures ParseQuery(Urlencode(pairs)) == Some(pairs)
  {
    SplitJoin(QueryFields(pairs), '&');
    ParseQueryFields(pairs);
  }
}
