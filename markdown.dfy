/**
 * The transcript's mini markdown renderer (parseMarkdown in
 * src/components/TranscriptionLog.js): four global regular-expression
 * rewrites, bold before italic and '*' before '_', then every line feed
 * becomes a <br /> tag.
 *
 * Each rewrite is modelled as the left-to-right scan a global replace
 * performs: at each position it tries the pattern; on a match it emits the
 * tagged content and resumes after the match, otherwise it copies one
 * character and moves on. The lazy `(.*?)` takes the first closing marker
 * it reaches, and fails at a line terminator, which `.` does not match.
 */
module Markdown {
  import opened Wrappers

  /** One of the four rewrites: `**x**`, `__x__` (doubled) or `*x*`, `_x_`. */
  datatype Rule = Rule(marker: char, doubled: bool)

  const BoldStar := Rule('*', true)
  const BoldUnderscore := Rule('_', true)
  const ItalicStar := Rule('*', false)
  const ItalicUnderscore := Rule('_', false)

  function Width(r: Rule): nat
  {
    if r.doubled then 2 else 1
  }

  function OpenTag(r: Rule): string
  {
    if r.doubled then "<strong>" else "<em>"
  }

  function CloseTag(r: Rule): string
  {
    if r.doubled then "</strong>" else "</em>"
  }

  /** The characters `.` does not match in a regular expression without the s flag. */
  predicate IsLineTerminator(c: char)
  {
    c == '\n' || c == '\r' || c as int == 0x2028 || c as int == 0x2029
  }

  /**
   * A marker of the rule at i: two marker characters for the bold rules;
   * for the italic rules one marker character not followed by another
   * (the `(?!\*)` look-ahead). Opening and closing markers are the same.
   */
  predicate MarkerAt(s: string, r: Rule, i: nat)
  {
    if r.doubled then i + 1 < |s| && s[i] == r.marker && s[i + 1] == r.marker
    else i < |s| && s[i] == r.marker && (i + 1 == |s| || s[i + 1] != r.marker)
  }

  /** The lazy content: the first closing marker from j on, unless a line terminator comes first. */
  function FindClose(s: string, r: Rule, j: nat): (q: Option<nat>)
    ensures q.Some? ==> j <= q.value && q.value + Width(r) <= |s| && MarkerAt(s, r, q.value)
    ensures q.Some? ==> forall k :: j <= k < q.value ==> !MarkerAt(s, r, k) && !IsLineTerminator(s[k])
    ensures q.None? ==> forall k :: j <= k < |s| && MarkerAt(s, r, k) ==>
      exists t :: j <= t < k && IsLineTerminator(s[t])
    decreases |s| - j
  {
    if j >= |s| then None
    else if MarkerAt(s, r, j) then Some(j)
    else if IsLineTerminator(s[j]) then None
    else FindClose(s, r, j + 1)
  }

  /** The global replace of one rule, from position i on. */
  function ReplaceFrom(s: string, r: Rule, i: nat): string
    requires i <= |s|
    decreases |s| - i
  {
    if i == |s| then []
    else if MarkerAt(s, r, i) && FindClose(s, r, i + Width(r)).Some? then
      var q := FindClose(s, r, i + Width(r)).value;
      OpenTag(r) + s[i + Width(r)..q] + CloseTag(r) + ReplaceFrom(s, r, q + Width(r))
    else [s[i]] + ReplaceFrom(s, r, i + 1)
  }

  function Replace(s: string, r: Rule): string
  {
    ReplaceFrom(s, r, 0)
  }

  /** `.replace(/\n/g, '<br />')`. */
  function Breaks(s: string): (r: string)
    ensures '\n' !in r
    ensures '\n' !in s ==> r == s
  {
    if s == [] then []
    else (if s[0] == '\n' then "<br />" else [s[0]]) + Breaks(s[1..])
  }

  /** The four rewrites in source order. */
  function Inline(s: string): string
  {
    Replace(Replace(Replace(Replace(s, BoldStar), BoldUnderscore), ItalicStar), ItalicUnderscore)
  }

  /** parseMarkdown: missing or empty text gives the empty string. */
  function ParseMarkdown(text: Option<string>): string
  {
    if text.None? || text.value == "" then "" else Breaks(Inline(text.value))
  }

  // ------------------------------------------------------------ properties

  /** Missing and empty text render as nothing. */
  lemma EmptyRendersEmpty()
    ensures ParseMarkdown(None) == ""
    ensures ParseMarkdown(Some("")) == ""
  {
  }

  /** The output never holds a line feed. */
  lemma NoLineFeedOut(text: Option<string>)
    ensures '\n' !in ParseMarkdown(text)
  {
  }

  /** A rewrite without a marker from i on copies the rest unchanged. */
  lemma {:induction false} NoMarkerUnchanged(s: string, r: Rule, i: nat)
    requires i <= |s|
    requires forall k :: i <= k < |s| ==> !MarkerAt(s, r, k)
    ensures ReplaceFrom(s, r, i) == s[i..]
    decreases |s| - i
  {
    if i < |s| {
      NoMarkerUnchanged(s, r, i + 1);
      assert s[i..] == [s[i]] + s[i + 1..];
    }
  }

  lemma ReplaceWithoutMarkerChar(s: string, r: Rule)
    requires r.marker !in s
    ensures Replace(s, r) == s
  {
    NoMarkerUnchanged(s, r, 0);
  }

  /** Text with no '*', no '_' and no line feed is shown exactly as written, HTML characters included. */
  lemma PlainTextUnchanged(s: string)
    requires s != "" && '*' !in s && '_' !in s && '\n' !in s
    ensures ParseMarkdown(Some(s)) == s
  {
    ReplaceWithoutMarkerChar(s, BoldStar);
    ReplaceWithoutMarkerChar(s, BoldUnderscore);
    ReplaceWithoutMarkerChar(s, ItalicStar);
    ReplaceWithoutMarkerChar(s, ItalicUnderscore);
  }

  /** The closing search skips plain content and stops at the first closing marker. */
  lemma {:induction false} FindCloseAfter(s: string, r: Rule, j: nat, q: nat)
    requires j <= q && MarkerAt(s, r, q)
    requires forall k :: j <= k < q ==> !MarkerAt(s, r, k) && !IsLineTerminator(s[k])
    ensures FindClose(s, r, j) == Some(q)
    decreases q - j
  {
    if j < q {
      FindCloseAfter(s, r, j + 1, q);
    }
  }

  /** Content usable inside a marker pair: no marker character of either kind and no line terminator. */
  predicate Plain(x: string)
  {
    forall k :: 0 <= k < |x| ==> x[k] != '*' && x[k] != '_' && !IsLineTerminator(x[k])
  }

  /** One rewrite of a wrapped plain text gives the tagged text. */
  lemma WrapRewritten(x: string, r: Rule)
    requires Plain(x) && (r.marker == '*' || r.marker == '_')
    requires !r.doubled ==> x != ""
    ensures var m := if r.doubled then [r.marker, r.marker] else [r.marker];
      Replace(m + x + m, r) == OpenTag(r) + x + CloseTag(r)
  {
    var m := if r.doubled then [r.marker, r.marker] else [r.marker];
    var s := m + x + m;
    var w := Width(r);
    assert |m| == w;
    assert MarkerAt(s, r, 0);
    forall k | w <= k < w + |x|
      ensures !MarkerAt(s, r, k) && !IsLineTerminator(s[k])
    {
      assert s[k] == x[k - w];
    }
    assert MarkerAt(s, r, w + |x|);
    FindCloseAfter(s, r, w, w + |x|);
    assert s[w..w + |x|] == x;
    assert ReplaceFrom(s, r, |s|) == [];
  }

  /** A tag pair around plain text holds neither marker character. */
  lemma TaggedPlain(x: string, r: Rule)
    requires Plain(x)
    ensures '*' !in OpenTag(r) + x + CloseTag(r) && '_' !in OpenTag(r) + x + CloseTag(r)
    ensures '\n' !in OpenTag(r) + x + CloseTag(r)
  {
    var t := OpenTag(r) + x + CloseTag(r);
    forall c | c in t
      ensures c != '*' && c != '_' && c != '\n'
    {
      var k :| 0 <= k < |t| && t[k] == c;
      if |OpenTag(r)| <= k < |OpenTag(r)| + |x| {
        assert t[k] == x[k - |OpenTag(r)|];
      }
    }
  }

  /** `**x**` and `__x__` render as strong text. */
  lemma BoldRendered(x: string)
    requires Plain(x)
    ensures ParseMarkdown(Some("**" + x + "**")) == "<strong>" + x + "</strong>"
    ensures ParseMarkdown(Some("__" + x + "__")) == "<strong>" + x + "</strong>"
  {
    var t := "<strong>" + x + "</strong>";
    TaggedPlain(x, BoldStar);
    WrapRewritten(x, BoldStar);
    ReplaceWithoutMarkerChar(t, BoldUnderscore);
    ReplaceWithoutMarkerChar(t, ItalicStar);
    ReplaceWithoutMarkerChar(t, ItalicUnderscore);
    var u := "__" + x + "__";
    assert '*' !in u by {
      forall k | 0 <= k < |u| ensures u[k] != '*' {
        if 2 <= k < 2 + |x| { assert u[k] == x[k - 2]; }
      }
    }
    ReplaceWithoutMarkerChar(u, BoldStar);
    WrapRewritten(x, BoldUnderscore);
  }

  /** `*x*` and `_x_` render as emphasis when x is not empty. */
  lemma ItalicRendered(x: string)
    requires Plain(x) && x != ""
    ensures ParseMarkdown(Some("*" + x + "*")) == "<em>" + x + "</em>"
    ensures ParseMarkdown(Some("_" + x + "_")) == "<em>" + x + "</em>"
  {
    var t := "<em>" + x + "</em>";
    TaggedPlain(x, ItalicStar);
    var s := "*" + x + "*";
    forall k | 0 <= k < |s|
      ensures !MarkerAt(s, BoldStar, k)
    {
      if 1 <= k < 1 + |x| { assert s[k] == x[k - 1]; }
      if k == 0 { assert s[1] == x[0]; }
    }
    NoMarkerUnchanged(s, BoldStar, 0);
    assert '_' !in s by {
      forall k | 0 <= k < |s| ensures s[k] != '_' {
        if 1 <= k < 1 + |x| { assert s[k] == x[k - 1]; }
      }
    }
    ReplaceWithoutMarkerChar(s, BoldUnderscore);
    WrapRewritten(x, ItalicStar);
    ReplaceWithoutMarkerChar(t, ItalicUnderscore);

    var u := "_" + x + "_";
    assert '*' !in u by {
      forall k | 0 <= k < |u| ensures u[k] != '*' {
        if 1 <= k < 1 + |x| { assert u[k] == x[k - 1]; }
      }
    }
    ReplaceWithoutMarkerChar(u, BoldStar);
    forall k | 0 <= k < |u|
      ensures !MarkerAt(u, BoldUnderscore, k)
    {
      if 1 <= k < 1 + |x| { assert u[k] == x[k - 1]; }
      if k == 0 { assert u[1] == x[0]; }
    }
    NoMarkerUnchanged(u, BoldUnderscore, 0);
    ReplaceWithoutMarkerChar(u, ItalicStar);
    WrapRewritten(x, ItalicUnderscore);
  }

  /**
   * Bold runs first for a reason: the italic rule alone would read `**x**`
   * as a stray star followed by emphasis that swallows the closing star.
   */
  lemma ItalicAloneMisreadsBold(x: string)
    requires Plain(x) && x != ""
    ensures Replace("**" + x + "**", ItalicStar) == "*<em>" + x + "*</em>"
  {
    var s := "**" + x + "**";
    var n := |x|;
    assert !MarkerAt(s, ItalicStar, 0);
    assert s[2] == x[0];
    assert MarkerAt(s, ItalicStar, 1);
    forall k | 2 <= k < 3 + n
      ensures !MarkerAt(s, ItalicStar, k) && !IsLineTerminator(s[k])
    {
      if k < 2 + n { assert s[k] == x[k - 2]; }
    }
    assert MarkerAt(s, ItalicStar, 3 + n);
    FindCloseAfter(s, ItalicStar, 2, 3 + n);
    assert s[2..3 + n] == x + "*";
    assert ReplaceFrom(s, ItalicStar, 0) == [s[0]] + ReplaceFrom(s, ItalicStar, 1);
    assert ReplaceFrom(s, ItalicStar, |s|) == [];
  }
}
