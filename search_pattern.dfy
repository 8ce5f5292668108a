// The case-insensitive search pattern built from free text by `buildRegex`
// (frontend/components/screens/SearchScreen.tsx and the identical helper in
// frontend/components/Models/menuModel.tsx).
//
// The input is trimmed; an empty result gives no pattern. Otherwise every
// regular-expression metacharacter is escaped, so each whitespace-free word
// is matched literally, and every run of white space becomes the lazy gap
// `.*?`, which may not cross a line terminator. The compiled pattern is
// therefore represented by its sequence of literal words.

module SearchPattern {
  import opened Basics
  import opened Text

  predicate IsRegexSpecial(c: char) {
    c in ".*+?^${}()|[]\\"
  }

  /** The replacement of every metacharacter by itself preceded by a backslash. */
  function Escape(s: string): (r: string)
    ensures |s| <= |r| <= 2 * |s|
  {
    if s == [] then []
    else (if IsRegexSpecial(s[0]) then ['\\', s[0]] else [s[0]]) + Escape(s[1..])
  }

  /** What the regular-expression parser reads back from an escaped literal. */
  function Unescape(s: string): (r: string)
    ensures |r| <= |s|
  {
    if s == [] then []
    else if s[0] == '\\' && |s| >= 2 then [s[1]] + Unescape(s[2..])
    else [s[0]] + Unescape(s[1..])
  }

  /** Escaping is lossless: the pattern matches the word itself, not its metacharacters. */
  lemma {:induction false} UnescapeEscape(s: string)
    ensures Unescape(Escape(s)) == s
  {
    if s != [] {
      UnescapeEscape(s[1..]);
      if IsRegexSpecial(s[0]) {
        assert Escape(s) == ['\\', s[0]] + Escape(s[1..]);
        assert Escape(s)[2..] == Escape(s[1..]);
      } else {
        assert Escape(s) == [s[0]] + Escape(s[1..]);
        assert Escape(s)[1..] == Escape(s[1..]);
      }
    }
  }

  predicate NoSpace(s: string) {
    forall i :: 0 <= i < |s| ==> !IsSpace(s[i])
  }

  /** The length of the leading run of non-white-space characters. */
  function WordLen(s: string): (n: nat)
    ensures n <= |s| && NoSpace(s[..n])
    ensures n < |s| ==> IsSpace(s[n])
  {
    if s == [] || IsSpace(s[0]) then 0
    else
      var n := 1 + WordLen(s[1..]);
      assert s[..n] == [s[0]] + s[1..][..n - 1];
      n
  }

  /** The maximal runs of non-white-space characters, in order: what `\s+` separates. */
  function Words(s: string): (r: seq<string>)
    ensures forall i :: 0 <= i < |r| ==> r[i] != [] && NoSpace(r[i])
    decreases |s|
  {
    if s == [] then []
    else if IsSpace(s[0]) then Words(s[1..])
    else
      var n := WordLen(s);
      [s[..n]] + Words(s[n..])
  }

  lemma {:induction false} WordsEmptyIffBlank(s: string)
    ensures Words(s) == [] <==> Blank(s)
    decreases |s|
  {
    if s != [] {
      if IsSpace(s[0]) {
        WordsEmptyIffBlank(s[1..]);
        assert Blank(s) <==> Blank(s[1..]) by {
          assert forall i :: 1 <= i < |s| ==> s[i] == s[1..][i - 1];
        }
      }
    }
  }

  /** `buildRegex`: no pattern for blank input, else the literal words of the trimmed input. */
  function BuildRegex(input: string): (r: Option<seq<string>>)
    ensures r.Some? ==> forall i :: 0 <= i < |r.value| ==> r.value[i] != [] && NoSpace(r.value[i])
  {
    var trimmed := Trim(input);
    if |trimmed| == 0 then None else Some(Words(trimmed))
  }

  /** No pattern exactly when the input is blank, and a pattern always has a word. */
  lemma BuildRegexNoneIffBlank(input: string)
    ensures BuildRegex(input).None? <==> Blank(input)
    ensures BuildRegex(input).Some? ==> BuildRegex(input).value != []
  {
    TrimEmptyIffBlank(input);
    var t := Trim(input);
    if t != [] {
      TrimShape(input);
      WordsEmptyIffBlank(t);
    }
  }

  /** Equality up to the `i` flag. */
  predicate StartsWithIgnoringCase(t: string, w: string) {
    |w| <= |t| && ToLower(t[..|w|]) == ToLower(w)
  }

  predicate NoLineBreak(s: string) {
    forall i :: 0 <= i < |s| ==> !IsLineTerminator(s[i])
  }

  /** The pattern matches at the very start of `t`. */
  predicate MatchesAt(words: seq<string>, t: string)
    decreases |words|
  {
    if words == [] then true
    else
      StartsWithIgnoringCase(t, words[0]) &&
      (|words| == 1 ||
       exists k | |words[0]| <= k <= |t| :: NoLineBreak(t[|words[0]|..k]) && MatchesAt(words[1..], t[k..]))
  }

  /** RegExp.prototype.test: the pattern matches somewhere in `t`. */
  predicate Test(words: seq<string>, t: string) {
    exists i | 0 <= i <= |t| :: MatchesAt(words, t[i..])
  }

  /** A text holding the words separated by single spaces matches the pattern there. */
  lemma {:induction false} MatchesSpacedWords(words: seq<string>, t: string)
    requires words != []
    requires StartsWith(t, Join(words, " "))
    ensures MatchesAt(words, t)
  {
    var w := words[0];
    if |words| == 1 {
      assert t[..|w|] == w;
    } else {
      var rest := Join(words[1..], " ");
      var full := w + " " + rest;
      assert Join(words, " ") == full;
      assert t[..|w|] == w;
      var k := |w| + 1;
      assert t[|w|..k] == " ";
      assert |full| == k + |rest| && t[..|full|] == full;
      assert full[k..] == rest;
      assert t[k..][..|rest|] == t[..|full|][k..];
      MatchesSpacedWords(words[1..], t[k..]);
    }
  }

  /** Typing the words of a field (single-spaced) finds that field. */
  lemma FieldContainingQueryMatches(words: seq<string>, t: string, i: nat)
    requires words != [] && i <= |t|
    requires StartsWith(t[i..], Join(words, " "))
    ensures Test(words, t)
  {
    MatchesSpacedWords(words, t[i..]);
  }
}
