/**
 * Bytes and "binary strings": the strings btoa accepts and atob returns,
 * whose every character has a code below 256 (String.fromCharCode(b) and
 * s.charCodeAt(i) convert between the two).
 */
module Bytes {

  type Byte = x: int | 0 <= x < 256

  predicate IsBinary(s: string)
  {
    forall i :: 0 <= i < |s| ==> s[i] as int < 256
  }

  /** String.fromCharCode applied to every byte, in order. */
  function BinaryString(b: seq<Byte>): (r: string)
    ensures |r| == |b| && IsBinary(r)
    ensures forall i :: 0 <= i < |b| ==> r[i] as int == b[i]
  {
    seq(|b|, i requires 0 <= i < |b| => b[i] as char)
  }

  /** charCodeAt at every index of a binary string. */
  function CharCodes(s: string): (r: seq<Byte>)
    requires IsBinary(s)
    ensures |r| == |s|
    ensures forall i :: 0 <= i < |s| ==> r[i] == s[i] as int
  {
    seq(|s|, i requires 0 <= i < |s| => s[i] as int)
  }

  lemma CharCodesOfBinaryString(b: seq<Byte>)
    ensures CharCodes(BinaryString(b)) == b
  {
  }

  lemma BinaryStringOfCharCodes(s: string)
    requires IsBinary(s)
    ensures BinaryString(CharCodes(s)) == s
  {
    var r := BinaryString(CharCodes(s));
    assert forall i :: 0 <= i < |s| ==> r[i] as int == s[i] as int;
  }
}
