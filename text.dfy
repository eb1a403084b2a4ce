/**
 * String primitives the application relies on: case-insensitive comparison
 * (String.prototype.toLowerCase, ASCII letters only), substring search
 * (String.prototype.includes), String.prototype.trim, and the decimal
 * rendering of a count inside a template literal.
 */
module Text {

  // ---------------------------------------------------------------- case

  function LowerChar(c: char): char
  {
    if 'A' <= c <= 'Z' then (c as int + 32) as char else c
  }

  /** toLowerCase, restricted to the ASCII letters. */
  function Lower(s: string): (r: string)
    ensures |r| == |s|
    ensures forall i :: 0 <= i < |s| ==> r[i] == LowerChar(s[i])
  {
    seq(|s|, i requires 0 <= i < |s| => LowerChar(s[i]))
  }

  lemma LowerIdempotent(s: string)
    ensures Lower(Lower(s)) == Lower(s)
  {
  }

  // ----------------------------------------------------------- substring

  predicate StartsWith(s: string, p: string)
  {
    |p| <= |s| && s[..|p|] == p
  }

  /** String.prototype.includes: n occurs in h at some position. */
  predicate Contains(h: string, n: string)
    decreases |h|
  {
    StartsWith(h, n) || (|h| > 0 && Contains(h[1..], n))
  }

  /** An occurrence at any position makes includes true. */
  lemma {:induction false} ContainsAt(h: string, n: string, i: nat)
    requires i + |n| <= |h| && h[i..i + |n|] == n
    ensures Contains(h, n)
    decreases i
  {
    if i > 0 {
      assert h[1..][i - 1..i - 1 + |n|] == h[i..i + |n|];
      ContainsAt(h[1..], n, i - 1);
    }
  }

  /** includes is true only when there is an occurrence. */
  lemma {:induction false} ContainsWitness(h: string, n: string) returns (i: nat)
    requires Contains(h, n)
    ensures i + |n| <= |h| && h[i..i + |n|] == n
    decreases |h|
  {
    if StartsWith(h, n) {
      i := 0;
    } else {
      var j := ContainsWitness(h[1..], n);
      assert h[1..][j..j + |n|] == h[j + 1..j + 1 + |n|];
      i := j + 1;
    }
  }

  // ---------------------------------------------------------------- trim

  /** ECMAScript WhiteSpace (including every Zs space separator) and LineTerminator. */
  predicate IsTrimSpace(c: char)
  {
    var n := c as int;
    (0x09 <= n <= 0x0D) || n == 0x20 || n == 0xA0 || n == 0x1680
    || (0x2000 <= n <= 0x200A) || n == 0x2028 || n == 0x2029 || n == 0x202F
    || n == 0x205F || n == 0x3000 || n == 0xFEFF
  }

  function TrimStart(s: string): (r: string)
    ensures |r| <= |s| && r == s[|s| - |r|..]
    ensures r == [] || !IsTrimSpace(r[0])
    ensures forall i :: 0 <= i < |s| - |r| ==> IsTrimSpace(s[i])
    decreases |s|
  {
    if |s| > 0 && IsTrimSpace(s[0]) then TrimStart(s[1..]) else s
  }

  function TrimEnd(s: string): (r: string)
    ensures |r| <= |s| && r == s[..|r|]
    ensures r == [] || !IsTrimSpace(r[|r| - 1])
    ensures forall i :: |r| <= i < |s| ==> IsTrimSpace(s[i])
    decreases |s|
  {
    if |s| > 0 && IsTrimSpace(s[|s| - 1]) then TrimEnd(s[..|s| - 1]) else s
  }

  /** String.prototype.trim. */
  function Trim(s: string): string
  {
    TrimEnd(TrimStart(s))
  }

  /**
   * trim removes exactly the white space at both ends: the result is a slice
   * of s that neither starts nor ends with white space, and everything cut
   * off is white space.
   */
  lemma TrimIsCore(s: string) returns (lo: nat, hi: nat)
    ensures lo <= hi <= |s| && Trim(s) == s[lo..hi]
    ensures Trim(s) == [] || (!IsTrimSpace(Trim(s)[0]) && !IsTrimSpace(Trim(s)[|Trim(s)| - 1]))
    ensures forall i :: 0 <= i < lo ==> IsTrimSpace(s[i])
    ensures forall i :: hi <= i < |s| ==> IsTrimSpace(s[i])
  {
    var t := TrimStart(s);
    var e := TrimEnd(t);
    lo := |s| - |t|;
    hi := lo + |e|;
    SuffixPrefix(s, lo, |e|);
    if e != [] {
      assert e[0] == t[0];
    }
    forall i | hi <= i < |s|
      ensures IsTrimSpace(s[i])
    {
      assert s[i] == t[i - lo];
    }
  }

  lemma SuffixPrefix<T>(s: seq<T>, lo: nat, n: nat)
    requires lo + n <= |s|
    ensures s[lo..][..n] == s[lo..lo + n]
  {
  }

  /** A trimmed text is empty exactly when the text is all white space. */
  lemma TrimEmptyIff(s: string)
    ensures Trim(s) == [] <==> forall i :: 0 <= i < |s| ==> IsTrimSpace(s[i])
  {
    var lo, hi := TrimIsCore(s);
    if Trim(s) != [] {
      assert !IsTrimSpace(s[lo]);
    }
  }

  /** A text without surrounding white space is left as it is. */
  lemma TrimKeepsCore(s: string)
    requires s == [] || (!IsTrimSpace(s[0]) && !IsTrimSpace(s[|s| - 1]))
    ensures Trim(s) == s
  {
  }

  /** Trimming twice trims no more than trimming once. */
  lemma TrimIdempotent(s: string)
    ensures Trim(Trim(s)) == Trim(s)
  {
    var lo, hi := TrimIsCore(s);
    TrimKeepsCore(Trim(s));
  }

  // ------------------------------------------------------------- decimal

  function DigitChar(d: nat): char
    requires d < 10
  {
    ('0' as int + d) as char
  }

  predicate IsDigit(c: char)
  {
    '0' <= c <= '9'
  }

  /** Decimal rendering of a natural number, as `${n}` does. */
  function NatToString(n: nat): (r: string)
    ensures |r| >= 1
    ensures forall i :: 0 <= i < |r| ==> IsDigit(r[i])
    decreases n
  {
    if n < 10 then [DigitChar(n)] else NatToString(n / 10) + [DigitChar(n % 10)]
  }

  /** The value a string of decimal digits denotes. */
  function DecimalValue(s: string): nat
    requires forall i :: 0 <= i < |s| ==> IsDigit(s[i])
  {
    if s == [] then 0 else DecimalValue(s[..|s| - 1]) * 10 + DigitValue(s[|s| - 1])
  }

  function DigitValue(c: char): nat
    requires IsDigit(c)
  {
    c as int - '0' as int
  }

  /** The rendering denotes the number rendered: it can be read back. */
  lemma {:induction false} NatToStringRoundTrip(n: nat)
    ensures DecimalValue(NatToString(n)) == n
    decreases n
  {
    if n >= 10 {
      var r := NatToString(n);
      assert r[..|r| - 1] == NatToString(n / 10);
      NatToStringRoundTrip(n / 10);
    }
  }

  // ------------------------------------------------------- counting, join

  function CountChar(s: string, c: char): nat
  {
    if s == [] then 0 else (if s[0] == c then 1 else 0) + CountChar(s[1..], c)
  }

  lemma {:induction false} CountCharAppend(a: string, b: string, c: char)
    ensures CountChar(a + b, c) == CountChar(a, c) + CountChar(b, c)
    decreases |a|
  {
    if a == [] {
      assert a + b == b;
    } else {
      assert (a + b)[1..] == a[1..] + b;
      CountCharAppend(a[1..], b, c);
    }
  }

  lemma {:induction false} CountCharAbsent(s: string, c: char)
    requires forall i :: 0 <= i < |s| ==> s[i] != c
    ensures CountChar(s, c) == 0
    decreases |s|
  {
    if s != [] {
      CountCharAbsent(s[1..], c);
    }
  }

  /** Array.prototype.join(sep) over a list of lines. */
  function Join(lines: seq<string>, sep: string): string
  {
    if |lines| == 0 then ""
    else if |lines| == 1 then lines[0]
    else lines[0] + sep + Join(lines[1..], sep)
  }

  /** Every joined line occurs in the joined text, at the returned position. */
  lemma {:induction false} JoinOccurrence(lines: seq<string>, sep: string, k: nat) returns (i: nat)
    requires k < |lines|
    ensures i + |lines[k]| <= |Join(lines, sep)| && Join(lines, sep)[i..i + |lines[k]|] == lines[k]
    decreases k
  {
    var whole := Join(lines, sep);
    if k == 0 {
      i := 0;
      if |lines| > 1 {
        assert whole == lines[0] + (sep + Join(lines[1..], sep));
      }
    } else {
      var rest := Join(lines[1..], sep);
      var j := JoinOccurrence(lines[1..], sep, k - 1);
      assert whole == (lines[0] + sep) + rest;
      i := |lines[0] + sep| + j;
      assert whole[i..i + |lines[k]|] == rest[j..j + |lines[k]|];
    }
  }

  /** Joining n newline-free lines with "\n" puts exactly n - 1 newlines in the text. */
  lemma {:induction false} JoinNewlines(lines: seq<string>)
    requires |lines| >= 1
    requires forall k, i :: 0 <= k < |lines| && 0 <= i < |lines[k]| ==> lines[k][i] != '\n'
    ensures CountChar(Join(lines, "\n"), '\n') == |lines| - 1
    decreases |lines|
  {
    CountCharAbsent(lines[0], '\n');
    if |lines| > 1 {
      JoinNewlines(lines[1..]);
      CountCharAppend(lines[0], "\n", '\n');
      CountCharAppend(lines[0] + "\n", Join(lines[1..], "\n"), '\n');
    }
  }
}
