/**
 * The Python string operations the core relies on: `str.lower`, `in` on strings,
 * `str.strip`, `str.title`, and the decimal rendering of an `int`.
 * Letter case is modelled on ASCII letters, plus the Kelvin sign that
 * `str.lower` turns into an ASCII letter.
 */
module Text {

  predicate IsUpper(c: char) { 'A' <= c <= 'Z' }

  predicate IsLowerLetter(c: char) { 'a' <= c <= 'z' }

  /** A cased character in the sense of `str.title`. */
  predicate IsLetter(c: char) { IsUpper(c) || IsLowerLetter(c) }

  /**
   * `c.lower()` for a character whose lower case is one character: ASCII
   * capitals and the Kelvin sign, which lowers to an ASCII `k`; every other
   * character is kept.
   */
  function LowerChar(c: char): char {
    if IsUpper(c) then (c as int + 32) as char
    else if c == '\U{212A}' then 'k'
    else c
  }

  function UpperChar(c: char): char {
    if IsLowerLetter(c) then (c as int - 32) as char else c
  }

  /** `s.lower()` */
  function Lower(s: string): string {
    seq(|s|, i requires 0 <= i < |s| => LowerChar(s[i]))
  }

  /** Lowering keeps the length, leaves no upper-case letter behind and is idempotent. */
  lemma LowerProperties(s: string)
    ensures |Lower(s)| == |s|
    ensures forall i :: 0 <= i < |s| ==> !IsUpper(Lower(s)[i])
    ensures Lower(Lower(s)) == Lower(s)
  {
  }

  predicate IsPrefix(p: string, s: string) {
    |p| <= |s| && s[..|p|] == p
  }

  /** Python's `sub in s`: `sub` occurs as a contiguous substring of `s`. */
  predicate Contains(s: string, sub: string)
    decreases |s|
  {
    IsPrefix(sub, s) || (|s| > 0 && Contains(s[1..], sub))
  }

  /** `sub` occurs in `s` starting at position `i`. */
  predicate OccursAt(s: string, sub: string, i: int) {
    0 <= i && i + |sub| <= |s| && s[i..i + |sub|] == sub
  }

  /** `sub in s` holds exactly when `sub` occurs at some position of `s`. */
  lemma {:induction false} ContainsIffOccurs(s: string, sub: string)
    ensures Contains(s, sub) <==> exists i :: OccursAt(s, sub, i)
    decreases |s|
  {
    if IsPrefix(sub, s) {
      assert OccursAt(s, sub, 0);
    } else if |s| == 0 {
      assert !Contains(s, sub);
    } else {
      ContainsIffOccurs(s[1..], sub);
      if Contains(s[1..], sub) {
        var j :| OccursAt(s[1..], sub, j);
        assert s[j + 1..j + 1 + |sub|] == s[1..][j..j + |sub|];
        assert OccursAt(s, sub, j + 1);
      }
      if exists i :: OccursAt(s, sub, i) {
        var i :| OccursAt(s, sub, i);
        assert i != 0;
        assert s[1..][i - 1..i - 1 + |sub|] == s[i..i + |sub|];
        assert OccursAt(s[1..], sub, i - 1);
      }
    }
  }

  /** An occurrence at a known position witnesses `sub in s`. */
  lemma ContainsAt(s: string, sub: string, i: nat)
    requires OccursAt(s, sub, i)
    ensures Contains(s, sub)
  {
    ContainsIffOccurs(s, sub);
  }

  /** `sub in a + sub + b` */
  lemma ContainsMiddle(a: string, sub: string, b: string)
    ensures Contains(a + sub + b, sub)
  {
    assert (a + sub + b)[|a|..|a| + |sub|] == sub;
    ContainsAt(a + sub + b, sub, |a|);
  }

  /** No string longer than `s` occurs in `s`. */
  lemma NotContainsLonger(s: string, sub: string)
    requires |sub| > |s|
    ensures !Contains(s, sub)
  {
    ContainsIffOccurs(s, sub);
  }

  /** A string whose first character does not occur in `s` does not occur in `s`. */
  lemma NotContainsHead(s: string, sub: string)
    requires sub != [] && sub[0] !in s
    ensures !Contains(s, sub)
  {
    ContainsIffOccurs(s, sub);
  }

  /** A string whose first two characters never stand next to each other in `s` does not occur in `s`. */
  lemma NotContainsFirstPair(s: string, sub: string)
    requires |sub| >= 2
    requires forall i :: 0 <= i < |s| - 1 ==> !(s[i] == sub[0] && s[i + 1] == sub[1])
    ensures !Contains(s, sub)
  {
    ContainsIffOccurs(s, sub);
    forall i | 0 <= i < |s| ensures !OccursAt(s, sub, i) {
      if i + |sub| <= |s| {
        assert s[i..i + |sub|][0] == s[i] && s[i..i + |sub|][1] == s[i + 1];
      }
    }
  }

  /** A string of two characters occurs in `s` only where both characters stand next to each other. */
  lemma ContainsPair(s: string, a: char, b: char)
    ensures Contains(s, [a, b]) <==> exists i :: 0 <= i < |s| - 1 && s[i] == a && s[i + 1] == b
  {
    ContainsIffOccurs(s, [a, b]);
    if exists i :: 0 <= i < |s| - 1 && s[i] == a && s[i + 1] == b {
      var i :| 0 <= i < |s| - 1 && s[i] == a && s[i + 1] == b;
      assert s[i..i + 2] == [a, b];
      assert OccursAt(s, [a, b], i);
    }
    if exists i :: OccursAt(s, [a, b], i) {
      var i :| OccursAt(s, [a, b], i);
      assert s[i..i + 2][0] == a && s[i..i + 2][1] == b;
    }
  }

  /** Python's `str.isspace` on one character: the whitespace code points of Unicode that Python strips. */
  predicate IsSpace(c: char) {
    || ('\t' <= c <= '\r')
    || ('\U{1C}' <= c <= ' ')
    || c == '\U{85}' || c == '\U{A0}' || c == '\U{1680}'
    || ('\U{2000}' <= c <= '\U{200A}')
    || c == '\U{2028}' || c == '\U{2029}' || c == '\U{202F}' || c == '\U{205F}' || c == '\U{3000}'
  }

  predicate AllSpace(s: string) {
    forall i :: 0 <= i < |s| ==> IsSpace(s[i])
  }

  function LStrip(s: string): string
    decreases |s|
  {
    if |s| > 0 && IsSpace(s[0]) then LStrip(s[1..]) else s
  }

  function RStrip(s: string): string
    decreases |s|
  {
    if |s| > 0 && IsSpace(s[|s| - 1]) then RStrip(s[..|s| - 1]) else s
  }

  /** `s.strip()` */
  function Strip(s: string): string {
    RStrip(LStrip(s))
  }

  lemma {:induction false} LStripEmptyIff(s: string)
    ensures LStrip(s) == [] <==> AllSpace(s)
    decreases |s|
  {
    if |s| > 0 && IsSpace(s[0]) {
      LStripEmptyIff(s[1..]);
      assert AllSpace(s) <==> AllSpace(s[1..]) by {
        if AllSpace(s[1..]) {
          forall i | 0 <= i < |s| ensures IsSpace(s[i]) {
            if i > 0 { assert s[i] == s[1..][i - 1]; }
          }
        }
      }
    }
  }

  lemma {:induction false} RStripOfEmpty(s: string)
    ensures RStrip(s) == [] <==> AllSpace(s)
    decreases |s|
  {
    if |s| > 0 && IsSpace(s[|s| - 1]) {
      RStripOfEmpty(s[..|s| - 1]);
      assert AllSpace(s) <==> AllSpace(s[..|s| - 1]) by {
        if AllSpace(s[..|s| - 1]) {
          forall i | 0 <= i < |s| ensures IsSpace(s[i]) {
            if i < |s| - 1 { assert s[i] == s[..|s| - 1][i]; }
          }
        }
      }
    }
  }

  /** `s.strip() == ""` holds exactly when every character of `s` is whitespace (the empty string included). */
  lemma StripEmptyIff(s: string)
    ensures Strip(s) == [] <==> AllSpace(s)
  {
    LStripEmptyIff(s);
    RStripOfEmpty(LStrip(s));
    if LStrip(s) != [] {
      // the first character left by LStrip is not whitespace
      LStripNonEmpty(s);
    }
  }

  lemma {:induction false} LStripNonEmpty(s: string)
    requires LStrip(s) != []
    ensures !IsSpace(LStrip(s)[0])
    decreases |s|
  {
    if |s| > 0 && IsSpace(s[0]) {
      LStripNonEmpty(s[1..]);
    }
  }

  lemma {:induction false} LStripSpacesThen(pre: string, body: string)
    requires AllSpace(pre)
    requires body != [] && !IsSpace(body[0])
    ensures LStrip(pre + body) == body
    decreases |pre|
  {
    if pre == [] {
      assert pre + body == body;
    } else {
      assert (pre + body)[1..] == pre[1..] + body;
      LStripSpacesThen(pre[1..], body);
    }
  }

  lemma {:induction false} RStripThenSpaces(body: string, post: string)
    requires AllSpace(post)
    requires body != [] && !IsSpace(body[|body| - 1])
    ensures RStrip(body + post) == body
    decreases |post|
  {
    if post == [] {
      assert body + post == body;
    } else {
      assert (body + post)[..|body + post| - 1] == body + post[..|post| - 1];
      RStripThenSpaces(body, post[..|post| - 1]);
    }
  }

  /**
   * Stripping a text framed by whitespace returns the text itself when the text
   * begins and ends with a non-whitespace character: how every `f"""\n...\n""".strip()`
   * template of the workflow evaluates.
   */
  lemma StripFramed(pre: string, body: string, post: string)
    requires AllSpace(pre) && AllSpace(post)
    requires body != [] && !IsSpace(body[0]) && !IsSpace(body[|body| - 1])
    ensures Strip(pre + body + post) == body
  {
    assert pre + body + post == pre + (body + post);
    LStripSpacesThen(pre, body + post);
    RStripThenSpaces(body, post);
  }

  function TitleFrom(s: string, previousCased: bool): string
    decreases |s|
  {
    if s == [] then []
    else
      var c := s[0];
      var t := if !IsLetter(c) then c else if previousCased then LowerChar(c) else UpperChar(c);
      [t] + TitleFrom(s[1..], IsLetter(c))
  }

  /** `s.title()`: a letter is upper-cased after a non-letter and lower-cased after a letter. */
  function Title(s: string): string {
    TitleFrom(s, false)
  }

  /** Title-casing changes only the case of letters: same length, same lower-cased text. */
  lemma {:induction false} TitleFromCase(s: string, previousCased: bool)
    ensures |TitleFrom(s, previousCased)| == |s|
    ensures Lower(TitleFrom(s, previousCased)) == Lower(s)
    decreases |s|
  {
    if s != [] {
      var c := s[0];
      TitleFromCase(s[1..], IsLetter(c));
      var t := TitleFrom(s, previousCased);
      assert t == [t[0]] + TitleFrom(s[1..], IsLetter(c));
      assert LowerChar(t[0]) == LowerChar(c);
      assert s == [c] + s[1..];
      assert Lower(t) == [LowerChar(t[0])] + Lower(TitleFrom(s[1..], IsLetter(c)));
      assert Lower(s) == [LowerChar(c)] + Lower(s[1..]);
    }
  }

  function DigitChar(d: nat): char
    requires d < 10
  {
    ('0' as int + d) as char
  }

  /** `str(n)` for a non-negative `int` */
  function NatToString(n: nat): string
    decreases n
  {
    if n < 10 then [DigitChar(n)] else NatToString(n / 10) + [DigitChar(n % 10)]
  }
}
