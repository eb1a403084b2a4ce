/**
 * The percent-escape step of decodeBase64Url (src/services/geminiService.js)
 * and the decodeURIComponent it hands the result to, after the Decode
 * operation of section 19.2.6.5 of ECMA-262: a '%' must start two hex
 * digits, and each run of escaped octets must be the UTF-8 encoding
 * (RFC 3629) of one code point, neither overlong nor a surrogate nor above
 * U+10FFFF.
 *
 * Strings here are sequences of Unicode scalar values, so a code point above
 * U+FFFF is one character rather than the surrogate pair a JavaScript string
 * holds.
 */
module Uri {
  import opened Wrappers
  import opened Bytes

  // --------------------------------------------------------- percent escape

  /** Number.prototype.toString(16) for one digit: lower-case. */
  function HexDigit(v: nat): char
    requires v < 16
  {
    if v < 10 then ('0' as int + v) as char else ('a' as int + (v - 10)) as char
  }

  predicate IsHex(c: char)
  {
    ('0' <= c <= '9') || ('a' <= c <= 'f') || ('A' <= c <= 'F')
  }

  function HexValue(c: char): (v: nat)
    requires IsHex(c)
    ensures v < 16
  {
    if '0' <= c <= '9' then c as int - '0' as int
    else if 'a' <= c <= 'f' then c as int - 'a' as int + 10
    else c as int - 'A' as int + 10
  }

  lemma HexRoundTrip(v: nat)
    requires v < 16
    ensures IsHex(HexDigit(v)) && HexValue(HexDigit(v)) == v
  {
  }

  /** '%' followed by the two-digit, zero-padded, lower-case hex code of each byte. */
  function PercentEscape(b: seq<Byte>): (r: string)
    ensures |r| == 3 * |b|
    decreases |b|
  {
    if b == [] then []
    else ['%', HexDigit(b[0] / 16), HexDigit(b[0] % 16)] + PercentEscape(b[1..])
  }

  // ------------------------------------------------------------- unescape

  /** An escaped octet, or a character that stands for itself. */
  datatype Token = Escaped(octet: Byte) | Literal(c: char)

  /** The tokens of a URI component; None (URIError) where a '%' is not followed by two hex digits. */
  function Tokens(s: string): (r: Option<seq<Token>>)
    decreases |s|
  {
    if s == [] then Some([])
    else if s[0] == '%' then
      if |s| >= 3 && IsHex(s[1]) && IsHex(s[2]) then
        match Tokens(s[3..])
        case None => None
        case Some(rest) => Some([Escaped(16 * HexValue(s[1]) + HexValue(s[2]))] + rest)
      else None
    else
      match Tokens(s[1..])
      case None => None
      case Some(rest) => Some([Literal(s[0])] + rest)
  }

  function Escape(b: seq<Byte>): (t: seq<Token>)
    ensures |t| == |b|
    ensures forall i :: 0 <= i < |b| ==> t[i] == Escaped(b[i])
  {
    seq(|b|, i requires 0 <= i < |b| => Escaped(b[i]))
  }

  lemma {:induction false} TokensOfPercentEscape(b: seq<Byte>)
    ensures Tokens(PercentEscape(b)) == Some(Escape(b))
    decreases |b|
  {
    if b != [] {
      var s := PercentEscape(b);
      HexRoundTrip(b[0] / 16);
      HexRoundTrip(b[0] % 16);
      assert s[3..] == PercentEscape(b[1..]);
      TokensOfPercentEscape(b[1..]);
      assert [Escaped(b[0])] + Escape(b[1..]) == Escape(b);
    }
  }

  // ---------------------------------------------------------------- UTF-8

  /** The length of the sequence a lead octet starts: 1 to 4, or 0 when it cannot lead one. */
  function SequenceLength(lead: Byte): nat
  {
    if lead < 0x80 then 1
    else if lead < 0xC0 then 0
    else if lead < 0xE0 then 2
    else if lead < 0xF0 then 3
    else if lead < 0xF8 then 4
    else 0
  }

  predicate IsContinuation(t: Token)
  {
    t.Escaped? && 0x80 <= t.octet < 0xC0
  }

  /** The octet an escaped token carries (0 for a literal, which never reaches CodePoint). */
  function Octet(t: Token): Byte
  {
    if t.Escaped? then t.octet else 0
  }

  /** The code point of a lead octet and the continuation octets after it. */
  function CodePoint(lead: Byte, tail: seq<Token>): int
    requires 2 <= SequenceLength(lead) && |tail| + 1 >= SequenceLength(lead)
  {
    var n := SequenceLength(lead);
    if n == 2 then (lead % 32) * 64 + Octet(tail[0]) % 64
    else if n == 3 then (lead % 16) * 4096 + (Octet(tail[0]) % 64) * 64 + Octet(tail[1]) % 64
    else (lead % 8) * 262144 + (Octet(tail[0]) % 64) * 4096 + (Octet(tail[1]) % 64) * 64 + Octet(tail[2]) % 64
  }

  /** The smallest code point a sequence of length n may encode; anything below is overlong. */
  function MinCodePoint(n: nat): int
  {
    if n == 2 then 0x80 else if n == 3 then 0x800 else 0x10000
  }

  predicate IsScalar(cp: int)
  {
    (0 <= cp < 0xD800) || (0xE000 <= cp < 0x110000)
  }

  /** A decoded character and the number of tokens it took. */
  datatype Decoded = Decoded(c: char, width: nat)

  /** The first character of a non-empty token sequence; None (URIError) on an invalid UTF-8 sequence. */
  function DecodeFirst(t: seq<Token>): (r: Option<Decoded>)
    requires t != []
    ensures r.Some? ==> 1 <= r.value.width <= |t|
  {
    match t[0]
    case Literal(c) => Some(Decoded(c, 1))
    case Escaped(b) =>
      var n := SequenceLength(b);
      if n == 1 then Some(Decoded(b as char, 1))
      else if n == 0 || |t| < n || !(forall i :: 1 <= i < n ==> IsContinuation(t[i])) then None
      else
        var cp := CodePoint(b, t[1..]);
        if cp < MinCodePoint(n) || !IsScalar(cp) then None else Some(Decoded(cp as char, n))
  }

  /** The decoded text of a token sequence; None (URIError) on an invalid UTF-8 sequence. */
  function DecodeTokens(t: seq<Token>): (r: Option<string>)
    decreases |t|
  {
    if t == [] then Some([])
    else
      match DecodeFirst(t)
      case None => None
      case Some(d) =>
        match DecodeTokens(t[d.width..])
        case None => None
        case Some(rest) => Some([d.c] + rest)
  }

  /** decodeURIComponent, with None for a URIError. */
  function DecodeURIComponent(s: string): (r: Option<string>)
  {
    match Tokens(s)
    case None => None
    case Some(t) => DecodeTokens(t)
  }

  /** The UTF-8 encoding of one scalar value. */
  function EncodeChar(c: char): (b: seq<Byte>)
    ensures 1 <= |b| <= 4
  {
    var cp := c as int;
    if cp < 0x80 then [cp]
    else if cp < 0x800 then [0xC0 + cp / 64, 0x80 + cp % 64]
    else if cp < 0x10000 then [0xE0 + cp / 4096, 0x80 + (cp / 64) % 64, 0x80 + cp % 64]
    else [0xF0 + cp / 262144, 0x80 + (cp / 4096) % 64, 0x80 + (cp / 64) % 64, 0x80 + cp % 64]
  }

  function Utf8Encode(s: string): (b: seq<Byte>)
    ensures |b| >= |s|
    decreases |s|
  {
    if s == [] then [] else EncodeChar(s[0]) + Utf8Encode(s[1..])
  }

  /** The first character decoded from a character's encoding is that character, taking all its octets. */
  lemma DecodeFirstOfEncode(c: char, rest: seq<Byte>)
    ensures DecodeFirst(Escape(EncodeChar(c) + rest)) == Some(Decoded(c, |EncodeChar(c)|))
  {
    var cp := c as int;
    if cp < 0x80 {
      assert (cp as char) == c;
    } else if cp < 0x800 {
      TwoOctets(c, rest);
    } else if cp < 0x10000 {
      ThreeOctets(c, rest);
    } else {
      FourOctets(c, rest);
    }
  }

  lemma TwoOctets(c: char, rest: seq<Byte>)
    requires 0x80 <= c as int < 0x800
    ensures DecodeFirst(Escape(EncodeChar(c) + rest)) == Some(Decoded(c, 2))
  {
    var cp := c as int;
    var t := Escape(EncodeChar(c) + rest);
    assert t[0] == Escaped(0xC0 + cp / 64) && t[1] == Escaped(0x80 + cp % 64);
    assert CodePoint(0xC0 + cp / 64, t[1..]) == cp;
  }

  lemma ThreeOctets(c: char, rest: seq<Byte>)
    requires 0x800 <= c as int < 0x10000
    ensures DecodeFirst(Escape(EncodeChar(c) + rest)) == Some(Decoded(c, 3))
  {
    var cp := c as int;
    var b0, b1, b2 := cp / 4096, (cp / 64) % 64, cp % 64;
    SplitThree(cp);
    var e: seq<Byte> := [0xE0 + b0, 0x80 + b1, 0x80 + b2];
    assert EncodeChar(c) == e;
    var t := Escape(e + rest);
    assert t[0] == Escaped(0xE0 + b0) && t[1] == Escaped(0x80 + b1) && t[2] == Escaped(0x80 + b2);
    CodePointThree(b0, b1, b2, t[1..]);
  }

  /** A code point from U+0800 to U+FFFF splits into a 4-bit and two 6-bit groups. */
  lemma SplitThree(cp: int)
    requires 0x800 <= cp < 0x10000
    ensures 0 <= cp / 4096 < 16
    ensures (cp / 4096) * 4096 + ((cp / 64) % 64) * 64 + cp % 64 == cp
  {
    var q1, r0 := cp / 64, cp % 64;
    var q2, r1 := q1 / 64, q1 % 64;
    assert cp == q1 * 64 + r0 && q1 == q2 * 64 + r1;
    assert cp == q2 * 4096 + (r1 * 64 + r0);
    assert cp / 4096 == q2;
  }

  lemma CodePointThree(b0: int, b1: int, b2: int, tail: seq<Token>)
    requires 0 <= b0 < 16 && 0 <= b1 < 64 && 0 <= b2 < 64
    requires |tail| >= 2 && tail[0] == Escaped(0x80 + b1) && tail[1] == Escaped(0x80 + b2)
    ensures SequenceLength(0xE0 + b0) == 3
    ensures CodePoint(0xE0 + b0, tail) == b0 * 4096 + b1 * 64 + b2
  {
    assert (0xE0 + b0) % 16 == b0;
    assert Octet(tail[0]) % 64 == b1 && Octet(tail[1]) % 64 == b2;
  }

  lemma FourOctets(c: char, rest: seq<Byte>)
    requires 0x10000 <= c as int
    ensures DecodeFirst(Escape(EncodeChar(c) + rest)) == Some(Decoded(c, 4))
  {
    var cp := c as int;
    var b0, b1, b2, b3 := cp / 262144, (cp / 4096) % 64, (cp / 64) % 64, cp % 64;
    SplitFour(cp);
    var e: seq<Byte> := [0xF0 + b0, 0x80 + b1, 0x80 + b2, 0x80 + b3];
    assert EncodeChar(c) == e;
    var t := Escape(e + rest);
    assert t[0] == Escaped(0xF0 + b0) && t[1] == Escaped(0x80 + b1);
    assert t[2] == Escaped(0x80 + b2) && t[3] == Escaped(0x80 + b3);
    assert forall i :: 1 <= i < 4 ==> IsContinuation(t[i]);
    CodePointFour(b0, b1, b2, b3, t[1..]);
  }

  /** A code point above U+FFFF splits into a 3-bit and three 6-bit groups. */
  lemma SplitFour(cp: int)
    requires 0x10000 <= cp < 0x110000
    ensures cp / 262144 < 8 && (cp / 4096) % 64 < 64 && (cp / 64) % 64 < 64 && cp % 64 < 64
    ensures (cp / 262144) * 262144 + ((cp / 4096) % 64) * 4096 + ((cp / 64) % 64) * 64 + cp % 64 == cp
  {
    var q1, r0 := cp / 64, cp % 64;
    var q2, r1 := q1 / 64, q1 % 64;
    var q3, r2 := q2 / 64, q2 % 64;
    assert cp == q1 * 64 + r0 && q1 == q2 * 64 + r1 && q2 == q3 * 64 + r2;
    assert cp == q2 * 4096 + (r1 * 64 + r0);
    assert cp / 4096 == q2;
    assert cp == q3 * 262144 + (r2 * 4096 + r1 * 64 + r0);
    assert cp / 262144 == q3;
  }

  lemma CodePointFour(b0: int, b1: int, b2: int, b3: int, tail: seq<Token>)
    requires 0 <= b0 < 8 && 0 <= b1 < 64 && 0 <= b2 < 64 && 0 <= b3 < 64
    requires |tail| >= 3 && tail[0] == Escaped(0x80 + b1) && tail[1] == Escaped(0x80 + b2) && tail[2] == Escaped(0x80 + b3)
    ensures SequenceLength(0xF0 + b0) == 4
    ensures CodePoint(0xF0 + b0, tail) == b0 * 262144 + b1 * 4096 + b2 * 64 + b3
  {
    assert (0xF0 + b0) % 8 == b0;
    assert Octet(tail[0]) % 64 == b1 && Octet(tail[1]) % 64 == b2 && Octet(tail[2]) % 64 == b3;
  }

  /** The encoding of one character decodes back to it, whatever follows. */
  lemma DecodeEncodeChar(c: char, rest: seq<Byte>)
    ensures DecodeTokens(Escape(EncodeChar(c) + rest)) ==
      match DecodeTokens(Escape(rest))
      case None => None
      case Some(r) => Some([c] + r)
  {
    var e := EncodeChar(c);
    var t := Escape(e + rest);
    assert t[|e|..] == Escape(rest);
    DecodeFirstOfEncode(c, rest);
  }

  /** decodeURIComponent of the escaped UTF-8 encoding of a text is the text. */
  lemma {:induction false} DecodeUtf8Encode(s: string)
    ensures DecodeTokens(Escape(Utf8Encode(s))) == Some(s)
    decreases |s|
  {
    if s != [] {
      DecodeEncodeChar(s[0], Utf8Encode(s[1..]));
      DecodeUtf8Encode(s[1..]);
      assert [s[0]] + s[1..] == s;
    }
  }

  /** Escaped octets below 0x80 decode one character each, to the character with that code. */
  lemma {:induction false} DecodeAscii(b: seq<Byte>)
    requires forall i :: 0 <= i < |b| ==> b[i] < 0x80
    ensures DecodeTokens(Escape(b)) == Some(BinaryString(b))
    decreases |b|
  {
    if b != [] {
      assert Escape(b)[1..] == Escape(b[1..]);
      DecodeAscii(b[1..]);
      assert BinaryString(b) == [b[0] as char] + BinaryString(b[1..]);
    }
  }

  /** A lone continuation octet, or a lead octet above 0xF7, is a URIError. */
  lemma InvalidLeadRejected(b: Byte, rest: seq<Byte>)
    requires SequenceLength(b) == 0
    ensures DecodeTokens(Escape([b] + rest)) == None
  {
  }

  /** A '%' not followed by two hex digits is a URIError. */
  lemma BadEscapeRejected(s: string)
    requires |s| >= 1 && s[0] == '%' && (|s| < 3 || !IsHex(s[1]) || !IsHex(s[2]))
    ensures DecodeURIComponent(s) == None
  {
  }
}
