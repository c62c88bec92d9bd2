/**
 * The string operations the pipeline applies to news text: lower-casing,
 * substring search (Python's `in` on `str`), removal of every character
 * that is not a letter or whitespace, whitespace tokenizing, title-casing
 * and Python's ordering of strings.  Case mapping is modelled on ASCII.
 */
module Text {

  predicate IsUpper(c: char) { 'A' <= c <= 'Z' }

  predicate IsLower(c: char) { 'a' <= c <= 'z' }

  /** `[a-zA-Z]` */
  predicate IsLetter(c: char) { IsUpper(c) || IsLower(c) }

  predicate IsDigit(c: char) { '0' <= c <= '9' }

  /** Python's `\s` on `str` (the characters for which `str.isspace()` holds). */
  predicate IsSpace(c: char) {
    c == ' ' || '\t' <= c <= '\r' || '\U{1c}' <= c <= '\U{1f}' || c == '\U{85}' || c == '\U{a0}'
    || c == '\U{1680}' || '\U{2000}' <= c <= '\U{200a}' || c == '\U{2028}' || c == '\U{2029}'
    || c == '\U{202f}' || c == '\U{205f}' || c == '\U{3000}'
  }

  function LowerChar(c: char): (r: char)
    ensures !IsUpper(r)
    ensures IsLetter(c) <==> IsLetter(r)
  {
    if IsUpper(c) then (c as int + 32) as char else c
  }

  function UpperChar(c: char): (r: char)
    ensures !IsLower(r)
  {
    if IsLower(c) then (c as int - 32) as char else c
  }

  /** `str.lower()` */
  function Lower(s: string): (r: string)
    ensures |r| == |s|
    ensures forall i :: 0 <= i < |s| ==> r[i] == LowerChar(s[i])
  {
    seq(|s|, i requires 0 <= i < |s| => LowerChar(s[i]))
  }

  /** `text` holds `kw` at position `i`. */
  ghost predicate OccursAt(text: string, kw: string, i: int) {
    0 <= i && i + |kw| <= |text| && text[i..i + |kw|] == kw
  }

  predicate StartsWith(text: string, kw: string) {
    |kw| <= |text| && text[..|kw|] == kw
  }

  /** Python's `kw in text`: `kw` is a contiguous substring of `text` (the empty string is in every string). */
  function Contains(text: string, kw: string): (r: bool)
    ensures r <==> exists i :: OccursAt(text, kw, i)
    decreases |text|
  {
    OccursStep(text, kw);
    StartsWith(text, kw) || (text != [] && Contains(text[1..], kw))
  }

  /** An occurrence is either at the start or an occurrence in the tail. */
  lemma OccursStep(text: string, kw: string)
    ensures (exists i :: OccursAt(text, kw, i))
        <==> StartsWith(text, kw) || (text != [] && exists j :: OccursAt(text[1..], kw, j))
  {
    if StartsWith(text, kw) {
      assert OccursAt(text, kw, 0);
    }
    if text != [] && exists j :: OccursAt(text[1..], kw, j) {
      var j :| OccursAt(text[1..], kw, j);
      assert text[j + 1..j + 1 + |kw|] == text[1..][j..j + |kw|];
      assert OccursAt(text, kw, j + 1);
    }
    if exists i :: OccursAt(text, kw, i) {
      var i :| OccursAt(text, kw, i);
      if i == 0 {
        assert text[..|kw|] == text[0..|kw|];
      } else {
        assert text[1..][i - 1..i - 1 + |kw|] == text[i..i + |kw|];
        assert OccursAt(text[1..], kw, i - 1);
      }
    }
  }

  /** A keyword found in a text is also found in any text built around it. */
  lemma ContainsInContext(pre: string, text: string, post: string, kw: string)
    requires Contains(text, kw)
    ensures Contains(pre + text + post, kw)
  {
    var i :| OccursAt(text, kw, i);
    var whole := pre + text + post;
    assert whole[|pre| + i..|pre| + i + |kw|] == text[i..i + |kw|];
    assert OccursAt(whole, kw, |pre| + i);
  }

  /** `re.sub(r'[^a-zA-Z\s]', '', s)`: keeps the ASCII letters and the whitespace, in order. */
  function LettersAndSpaces(s: string): (r: string)
    ensures |r| <= |s|
    ensures forall c | c in r :: c in s && (IsLetter(c) || IsSpace(c))
    ensures forall c | c in s && (IsLetter(c) || IsSpace(c)) :: c in r
  {
    if s == [] then []
    else
      var rest := LettersAndSpaces(s[1..]);
      assert forall c | c in s[1..] :: c in s;
      assert forall c | c in s :: c == s[0] || c in s[1..];
      if IsLetter(s[0]) || IsSpace(s[0]) then [s[0]] + rest else rest
  }

  /** Length of the run of non-whitespace characters that starts `s`. */
  function WordEnd(s: string): (n: nat)
    ensures n <= |s|
    ensures forall i :: 0 <= i < n ==> !IsSpace(s[i])
    ensures n < |s| ==> IsSpace(s[n])
    ensures s != [] && !IsSpace(s[0]) ==> n > 0
  {
    if s == [] || IsSpace(s[0]) then 0 else 1 + WordEnd(s[1..])
  }

  /**
   * Whitespace tokenizing: the maximal runs of non-whitespace characters of
   * `s`, in order.  Every token is non-empty, holds no whitespace, and is
   * made of characters of `s`.
   */
  function Words(s: string): (ws: seq<string>)
    ensures forall w | w in ws :: w != [] && forall c | c in w :: c in s && !IsSpace(c)
    decreases |s|
  {
    if s == [] then []
    else if IsSpace(s[0]) then
      assert forall c | c in s[1..] :: c in s;
      Words(s[1..])
    else
      var n := WordEnd(s);
      assert forall c | c in s[..n] :: c in s && !IsSpace(c);
      assert forall c | c in s[n..] :: c in s;
      [s[..n]] + Words(s[n..])
  }

  /** A run without whitespace reaches the end of the string. */
  lemma {:induction false} WordEndWhole(w: string)
    requires forall c | c in w :: !IsSpace(c)
    ensures WordEnd(w) == |w|
  {
    if w != [] {
      assert forall c | c in w[1..] :: c in w;
      WordEndWhole(w[1..]);
    }
  }

  /** A run stops at the first whitespace character, whatever follows it. */
  lemma {:induction false} WordEndStops(a: string, c: char, b: string)
    requires IsSpace(c)
    ensures WordEnd(a + [c] + b) == WordEnd(a)
  {
    if a != [] && !IsSpace(a[0]) {
      assert (a + [c] + b)[1..] == a[1..] + [c] + b;
      WordEndStops(a[1..], c, b);
    }
  }

  /** A non-empty string without whitespace is one token. */
  lemma WordsSingle(w: string)
    requires w != [] && forall c | c in w :: !IsSpace(c)
    ensures Words(w) == [w]
  {
    WordEndWhole(w);
    assert w[..|w|] == w;
    assert w[|w|..] == [];
  }

  /** A whitespace character separates: the tokens on either side of it, in order. */
  lemma {:induction false} WordsSplit(a: string, c: char, b: string)
    requires IsSpace(c)
    ensures Words(a + [c] + b) == Words(a) + Words(b)
    decreases |a|
  {
    var s := a + [c] + b;
    if a == [] {
      assert s[1..] == b;
    } else if IsSpace(a[0]) {
      assert s[1..] == a[1..] + [c] + b;
      WordsSplit(a[1..], c, b);
    } else {
      var n := WordEnd(a);
      WordEndStops(a, c, b);
      assert s[..n] == a[..n];
      assert s[n..] == a[n..] + [c] + b;
      WordsSplit(a[n..], c, b);
    }
  }

  /** `w.isalnum()` */
  predicate IsAlnum(w: string) {
    w != [] && forall c | c in w :: IsLetter(c) || IsDigit(c)
  }

  /** The token filter of the keyword statistics: alphanumeric, not a stopword, longer than two characters. */
  function KeptToken(stopWords: set<string>): string -> bool {
    (w: string) => IsAlnum(w) && w !in stopWords && |w| > 2
  }

  /** `str.title()` on ASCII: a letter after a letter is lower-cased, any other letter upper-cased. */
  function TitleFrom(s: string, afterLetter: bool): (r: string)
    ensures |r| == |s|
  {
    if s == [] then []
    else
      var c := s[0];
      [if !IsLetter(c) then c else if afterLetter then LowerChar(c) else UpperChar(c)]
        + TitleFrom(s[1..], IsLetter(c))
  }

  function Title(s: string): (r: string)
    ensures |r| == |s|
  {
    TitleFrom(s, false)
  }

  /** `s` holds no upper-case letter. */
  predicate NoUpper(s: string) {
    forall c | c in s :: !IsUpper(c)
  }

  /** `[x.title() for x in names]` */
  function Titles(names: seq<string>): (r: seq<string>)
    ensures |r| == |names| && forall i :: 0 <= i < |names| ==> r[i] == Title(names[i])
  {
    seq(|names|, i requires 0 <= i < |names| => Title(names[i]))
  }

  /** Distinct names without upper-case letters keep distinct titles. */
  lemma TitlesDistinct(names: seq<string>)
    requires forall i | 0 <= i < |names| :: NoUpper(names[i])
    requires forall i, j :: 0 <= i < j < |names| ==> names[i] != names[j]
    ensures forall i, j :: 0 <= i < j < |Titles(names)| ==> Titles(names)[i] != Titles(names)[j]
  {
    forall i, j | 0 <= i < j < |names| ensures Titles(names)[i] != Titles(names)[j] {
      TitleInjective(names[i], names[j]);
    }
  }

  /** Title-casing changes only the case of letters: lower-casing undoes it. */
  lemma {:induction false} LowerTitleFromAt(s: string, afterLetter: bool, i: nat)
    requires i < |s|
    ensures LowerChar(TitleFrom(s, afterLetter)[i]) == LowerChar(s[i])
  {
    if i > 0 {
      LowerTitleFromAt(s[1..], IsLetter(s[0]), i - 1);
    }
  }

  /** `str.title()` is one-to-one on strings that have no upper-case letter. */
  lemma TitleInjective(a: string, b: string)
    requires NoUpper(a) && NoUpper(b)
    ensures Title(a) == Title(b) ==> a == b
  {
    if Title(a) == Title(b) {
      forall i | 0 <= i < |a| ensures a[i] == b[i] {
        LowerTitleFromAt(a, false, i);
        LowerTitleFromAt(b, false, i);
        assert a[i] in a && b[i] in b;
      }
    }
  }

  /** Python's `a < b` on `str`: lexicographic order of code points, a proper prefix first. */
  predicate Below(a: string, b: string)
    decreases |a|
  {
    |b| > 0 && (|a| == 0 || a[0] < b[0] || (a[0] == b[0] && Below(a[1..], b[1..])))
  }

  lemma {:induction false} BelowIrreflexive(a: string)
    ensures !Below(a, a)
    decreases |a|
  {
    if |a| > 0 {
      BelowIrreflexive(a[1..]);
    }
  }

  lemma {:induction false} BelowTransitive(a: string, b: string, c: string)
    requires Below(a, b) && Below(b, c)
    ensures Below(a, c)
    decreases |a|
  {
    if |a| > 0 && a[0] == b[0] && b[0] == c[0] {
      BelowTransitive(a[1..], b[1..], c[1..]);
    }
  }

  lemma {:induction false} BelowTotal(a: string, b: string)
    ensures a == b || Below(a, b) || Below(b, a)
    decreases |a|
  {
    if |a| > 0 && |b| > 0 && a[0] == b[0] {
      BelowTotal(a[1..], b[1..]);
      if a[1..] == b[1..] {
        assert a == [a[0]] + a[1..] && b == [b[0]] + b[1..];
      }
    }
  }
}
