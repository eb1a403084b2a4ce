/**
 * btoa and atob: the base 64 encoding of section 4 of RFC 4648 over binary
 * strings, and the WHATWG "forgiving-base64 decode" that atob performs
 * (ASCII white space removed, up to two trailing '=' dropped when the
 * length is a multiple of four, failure on a length of 1 modulo 4 or on a
 * character outside the alphabet, leftover bits discarded).
 */
module Base64 {
  import opened Wrappers
  import opened Bytes

  type Sextet = x: int | 0 <= x < 64

  // -------------------------------------------------------------- alphabet

  /** Table 1 of RFC 4648. */
  function Alpha(v: Sextet): char
  {
    if v < 26 then ('A' as int + v) as char
    else if v < 52 then ('a' as int + (v - 26)) as char
    else if v < 62 then ('0' as int + (v - 52)) as char
    else if v == 62 then '+'
    else '/'
  }

  predicate IsAlpha(c: char)
  {
    ('A' <= c <= 'Z') || ('a' <= c <= 'z') || ('0' <= c <= '9') || c == '+' || c == '/'
  }

  function AlphaValue(c: char): (v: Sextet)
    requires IsAlpha(c)
    ensures Alpha(v) == c
  {
    if 'A' <= c <= 'Z' then c as int - 'A' as int
    else if 'a' <= c <= 'z' then c as int - 'a' as int + 26
    else if '0' <= c <= '9' then c as int - '0' as int + 52
    else if c == '+' then 62
    else 63
  }

  predicate AllAlpha(s: string)
  {
    forall i :: 0 <= i < |s| ==> IsAlpha(s[i])
  }

  lemma AlphaRoundTrip(v: Sextet)
    ensures IsAlpha(Alpha(v)) && AlphaValue(Alpha(v)) == v
  {
  }

  // ---------------------------------------------------------------- encode

  /** The 6-bit groups of RFC 4648 section 4, the last group zero-filled on the right. */
  function Sextets(b: seq<Byte>): (r: seq<Sextet>)
    ensures |r| == 4 * (|b| / 3) + (if |b| % 3 == 0 then 0 else |b| % 3 + 1)
    decreases |b|
  {
    if |b| == 0 then []
    else if |b| == 1 then [b[0] / 4, (b[0] % 4) * 16]
    else if |b| == 2 then [b[0] / 4, (b[0] % 4) * 16 + b[1] / 16, (b[1] % 16) * 4]
    else [b[0] / 4, (b[0] % 4) * 16 + b[1] / 16, (b[1] % 16) * 4 + b[2] / 64, b[2] % 64]
         + Sextets(b[3..])
  }

  /** The '=' characters that complete the final quantum. */
  function Padding(n: nat): string
  {
    if n % 3 == 1 then "==" else if n % 3 == 2 then "=" else ""
  }

  /** The alphabet characters of the encoding, before padding. */
  function Digits(b: seq<Byte>): (r: string)
    ensures |r| == |Sextets(b)| && AllAlpha(r)
  {
    var s := Sextets(b);
    seq(|s|, i requires 0 <= i < |s| => Alpha(s[i]))
  }

  /** The base 64 text of a byte sequence. */
  function Encode(b: seq<Byte>): (r: string)
    ensures |r| == 4 * ((|b| + 2) / 3)
    ensures forall i :: 0 <= i < |r| ==> IsAlpha(r[i]) || r[i] == '='
  {
    Digits(b) + Padding(|b|)
  }

  /** btoa: fails (InvalidCharacterError) on a character code above 255. */
  function Btoa(s: string): (r: Option<string>)
    ensures r.None? <==> !IsBinary(s)
  {
    if IsBinary(s) then Some(Encode(CharCodes(s))) else None
  }

  // ---------------------------------------------------------------- decode

  /** The bytes that a run of 6-bit groups carries, leftover bits dropped. */
  function DecodeSextets(v: seq<Sextet>): seq<Byte>
    requires |v| % 4 != 1
    decreases |v|
  {
    if |v| == 0 then []
    else if |v| == 2 then [v[0] as int * 4 + v[1] / 16]
    else if |v| == 3 then [v[0] as int * 4 + v[1] / 16, (v[1] % 16) as int * 16 + v[2] / 4]
    else [v[0] as int * 4 + v[1] / 16, (v[1] % 16) as int * 16 + v[2] / 4, (v[2] % 4) as int * 64 + v[3]]
         + DecodeSextets(v[4..])
  }

  /** ASCII white space as the WHATWG infra standard defines it. */
  predicate IsAsciiWhitespace(c: char)
  {
    c == '\t' || c == '\n' || c as int == 0x0C || c == '\r' || c == ' '
  }

  function RemoveWhitespace(s: string): (r: string)
    ensures forall i :: 0 <= i < |r| ==> !IsAsciiWhitespace(r[i])
    ensures (forall i :: 0 <= i < |s| ==> !IsAsciiWhitespace(s[i])) ==> r == s
    decreases |s|
  {
    if s == [] then []
    else (if IsAsciiWhitespace(s[0]) then [] else [s[0]]) + RemoveWhitespace(s[1..])
  }

  /** When the length is a multiple of four, one or two trailing '=' are dropped. */
  function StripPadding(s: string): string
  {
    if |s| % 4 != 0 then s
    else if |s| >= 2 && s[|s| - 2..] == "==" then s[..|s| - 2]
    else if |s| >= 1 && s[|s| - 1] == '=' then s[..|s| - 1]
    else s
  }

  function Values(s: string): (r: seq<Sextet>)
    requires AllAlpha(s)
    ensures |r| == |s|
  {
    seq(|s|, i requires 0 <= i < |s| => AlphaValue(s[i]))
  }

  /** atob: the binary string a base 64 text stands for, or None where atob throws. */
  function Atob(s: string): (r: Option<string>)
    ensures r.Some? ==> IsBinary(r.value)
  {
    var d := StripPadding(RemoveWhitespace(s));
    if |d| % 4 == 1 || !AllAlpha(d) then None
    else Some(BinaryString(DecodeSextets(Values(d))))
  }

  // ------------------------------------------------------------ round trip

  /** A full quantum: three octets, split into four sextets and joined again. */
  lemma QuantumRoundTrip(x: Byte, y: Byte, z: Byte)
    ensures DecodeSextets([x / 4, (x % 4) * 16 + y / 16, (y % 16) * 4 + z / 64, z % 64]) == [x, y, z]
  {
    var v: seq<Sextet> := [x / 4, (x % 4) * 16 + y / 16, (y % 16) * 4 + z / 64, z % 64];
    assert v[1] / 16 == x % 4 && v[1] % 16 == y / 16;
    assert v[2] / 4 == y % 16 && v[2] % 4 == z / 64;
    assert v[4..] == [];
  }

  /** A final quantum of two octets. */
  lemma PairRoundTrip(x: Byte, y: Byte)
    ensures DecodeSextets([x / 4, (x % 4) * 16 + y / 16, (y % 16) * 4]) == [x, y]
  {
    var v: seq<Sextet> := [x / 4, (x % 4) * 16 + y / 16, (y % 16) * 4];
    assert v[1] / 16 == x % 4 && v[1] % 16 == y / 16;
    assert v[2] / 4 == y % 16;
  }

  /** A final quantum of one octet. */
  lemma SingleRoundTrip(x: Byte)
    ensures DecodeSextets([x / 4, (x % 4) * 16]) == [x]
  {
    var v: seq<Sextet> := [x / 4, (x % 4) * 16];
    assert v[1] / 16 == x % 4;
  }

  /** Decoding a whole quantum in front of the rest. */
  lemma DecodeQuantumFirst(q: seq<Sextet>, rest: seq<Sextet>)
    requires |q| == 4 && |rest| % 4 != 1
    ensures DecodeSextets(q + rest) == DecodeSextets(q) + DecodeSextets(rest)
  {
    var v := q + rest;
    assert v[..4] == q && v[4..] == rest;
    assert q[4..] == [];
  }

  /** A sextet sequence never leaves a single sextet over. */
  lemma SextetsNoSingle(b: seq<Byte>)
    ensures |Sextets(b)| % 4 != 1
  {
    var k := |b| / 3;
    var t := if |b| % 3 == 0 then 0 else |b| % 3 + 1;
    assert |Sextets(b)| == 4 * k + t;
    assert (4 * k + t) % 4 == t;
  }

  lemma SplitThree<T>(b: seq<T>)
    requires |b| >= 3
    ensures [b[0], b[1], b[2]] + b[3..] == b
  {
  }

  lemma {:induction false} DecodeSextetsOfSextets(b: seq<Byte>)
    ensures |Sextets(b)| % 4 != 1
    ensures DecodeSextets(Sextets(b)) == b
    decreases |b|
  {
    SextetsNoSingle(b);
    if |b| == 1 {
      SingleRoundTrip(b[0]);
    } else if |b| == 2 {
      PairRoundTrip(b[0], b[1]);
      assert b == [b[0], b[1]];
    } else if |b| >= 3 {
      var q: seq<Sextet> := [b[0] / 4, (b[0] % 4) * 16 + b[1] / 16, (b[1] % 16) * 4 + b[2] / 64, b[2] % 64];
      assert Sextets(b) == q + Sextets(b[3..]);
      SextetsNoSingle(b[3..]);
      DecodeQuantumFirst(q, Sextets(b[3..]));
      DecodeSextetsOfSextets(b[3..]);
      QuantumRoundTrip(b[0], b[1], b[2]);
      SplitThree(b);
    }
  }

  /** The text btoa produces is read back by atob as the same binary string. */
  lemma AtobOfEncode(b: seq<Byte>)
    ensures Atob(Encode(b)) == Some(BinaryString(b))
  {
    var e := Encode(b);
    EncodeHasNoWhitespace(b);
    StripPaddingOfEncode(b);
    DecodeSextetsOfSextets(b);
    ValuesOfDigits(b);
  }

  lemma EncodeHasNoWhitespace(b: seq<Byte>)
    ensures RemoveWhitespace(Encode(b)) == Encode(b)
  {
    var e := Encode(b);
    assert forall i :: 0 <= i < |e| ==> !IsAsciiWhitespace(e[i]);
  }

  /** atob's padding removal takes off exactly the '=' that btoa added. */
  lemma StripPaddingOfEncode(b: seq<Byte>)
    ensures StripPadding(Encode(b)) == Digits(b)
  {
    var k, t := |b| / 3, |b| % 3;
    assert |b| == 3 * k + t;
    assert |Digits(b)| == 4 * k + (if t == 0 then 0 else t + 1);
    assert Padding(|b|) == (if t == 1 then "==" else if t == 2 then "=" else "");
    assert (|Digits(b)| + |Padding(|b|)|) % 4 == 0 by {
      assert |Digits(b)| + |Padding(|b|)| == 4 * k + (if t == 0 then 0 else 4);
    }
    StripPaddingOf(Digits(b), Padding(|b|));
  }

  lemma StripPaddingOf(d: string, p: string)
    requires AllAlpha(d) && (p == "" || p == "=" || p == "==")
    requires (|d| + |p|) % 4 == 0 && (p != "" ==> |d| >= 1)
    ensures StripPadding(d + p) == d
  {
    var e := d + p;
    if p == "==" {
      assert e[|e| - 2..] == "==";
      assert e[..|e| - 2] == d;
    } else if p == "=" {
      assert e[|e| - 2] == d[|d| - 1];
      assert e[..|e| - 1] == d;
    } else {
      assert e == d;
      if |d| > 0 {
        assert e[|e| - 1] == d[|d| - 1];
      }
    }
  }

  lemma ValuesOfDigits(b: seq<Byte>)
    ensures Values(Digits(b)) == Sextets(b)
  {
    var s := Sextets(b);
    forall i | 0 <= i < |s|
      ensures Values(Digits(b))[i] == s[i]
    {
      AlphaRoundTrip(s[i]);
    }
  }

  /** atob(btoa(s)) == s for every binary string. */
  lemma AtobBtoa(s: string)
    requires IsBinary(s)
    ensures Btoa(s).Some? && Atob(Btoa(s).value) == Some(s)
  {
    AtobOfEncode(CharCodes(s));
    BinaryStringOfCharCodes(s);
  }

  /** atob rejects a text whose alphabet characters number 1 modulo 4. */
  lemma AtobRejectsOneLeftover(s: string)
    requires AllAlpha(s) && |s| % 4 == 1
    ensures Atob(s) == None
  {
    assert RemoveWhitespace(s) == s;
  }
}
