// String vocabulary shared by the screens: JavaScript's trim, toLowerCase,
// includes, startsWith/endsWith, split, join, repeat, and decimal numerals.
//
// Case mapping is ASCII only; white space is that of trim() and \s: the
// ASCII white space, U+00A0, U+1680, U+2000 to U+200A, U+2028, U+2029,
// U+202F, U+205F, U+3000 and U+FEFF.

module Text {

  predicate IsSpace(c: char) {
    c == ' ' || c == '\t' || c == '\n' || c == '\r' || c == '\U{0B}' || c == '\U{0C}'
    || c == '\U{A0}' || c == '\U{1680}' || ('\U{2000}' <= c <= '\U{200A}') || c == '\U{2028}' || c == '\U{2029}'
    || c == '\U{202F}' || c == '\U{205F}' || c == '\U{3000}' || c == '\U{FEFF}'
  }

  /** JavaScript's line terminators, which a regular-expression `.` does not match. */
  predicate IsLineTerminator(c: char) {
    c == '\n' || c == '\r' || c == '\U{2028}' || c == '\U{2029}'
  }

  predicate IsDigit(c: char) { '0' <= c <= '9' }

  predicate Blank(s: string) { forall i :: 0 <= i < |s| ==> IsSpace(s[i]) }

  function TrimStart(s: string): (r: string)
    ensures |r| <= |s|
  {
    if |s| > 0 && IsSpace(s[0]) then TrimStart(s[1..]) else s
  }

  function TrimEnd(s: string): (r: string)
    ensures |r| <= |s|
  {
    if |s| > 0 && IsSpace(s[|s| - 1]) then TrimEnd(s[..|s| - 1]) else s
  }

  /** String.prototype.trim */
  function Trim(s: string): string {
    TrimEnd(TrimStart(s))
  }

  /** trimStart removes a blank prefix and leaves a string that does not start with white space. */
  lemma {:induction false} TrimStartShape(s: string)
    ensures var r := TrimStart(s); r == s[|s| - |r|..] && Blank(s[..|s| - |r|])
    ensures TrimStart(s) != [] ==> !IsSpace(TrimStart(s)[0])
  {
    if |s| > 0 && IsSpace(s[0]) {
      TrimStartShape(s[1..]);
      var r := TrimStart(s);
      assert s[1..][..|s| - 1 - |r|] == s[1..|s| - |r|];
      assert forall i :: 1 <= i < |s| - |r| ==> s[i] == s[1..|s| - |r|][i - 1];
    }
  }

  /** trimEnd removes a blank suffix and leaves a string that does not end with white space. */
  lemma {:induction false} TrimEndShape(s: string)
    ensures var r := TrimEnd(s); r == s[..|r|] && Blank(s[|r|..])
    ensures TrimEnd(s) != [] ==> !IsSpace(TrimEnd(s)[|TrimEnd(s)| - 1])
  {
    if |s| > 0 && IsSpace(s[|s| - 1]) {
      var s' := s[..|s| - 1];
      TrimEndShape(s');
      var r := TrimEnd(s);
      assert s'[..|r|] == s[..|r|];
      assert forall i :: |r| <= i < |s| - 1 ==> s[i] == s'[|r|..][i - |r|];
    }
  }

  /** The trimmed string is a slice of the input whose ends are not white space. */
  lemma TrimShape(s: string)
    ensures Trim(s) != [] ==> !IsSpace(Trim(s)[0]) && !IsSpace(Trim(s)[|Trim(s)| - 1])
    ensures var i := |s| - |TrimStart(s)|; Trim(s) == s[i..i + |Trim(s)|]
  {
    var t := TrimStart(s);
    var r := TrimEnd(t);
    var i := |s| - |t|;
    TrimStartShape(s);
    TrimEndShape(t);
    assert r == t[..|r|];
    if r != [] {
      assert r[0] == t[0];
    }
    assert t == s[i..];
    assert r == s[i..i + |r|];
  }

  /** `!s.trim()` in the source: the trimmed string is empty exactly when every character is white space. */
  lemma {:induction false} TrimEmptyIffBlank(s: string)
    ensures Trim(s) == [] <==> Blank(s)
  {
    var t := TrimStart(s);
    TrimStartShape(s);
    TrimEndShape(t);
    if t == [] {
      assert s == s[..|s|];
    } else {
      assert !IsSpace(t[0]);
      assert TrimEnd(t) != [];
      assert s[|s| - |t|] == t[0];
    }
  }

  lemma {:induction false} TrimIdempotent(s: string)
    ensures Trim(Trim(s)) == Trim(s)
  {
    var t := Trim(s);
    if t != [] {
      TrimShape(s);
      assert TrimStart(t) == t;
      assert TrimEnd(t) == t;
    }
  }

  /** trimStart of a string followed by a space: the space survives unless the string is blank. */
  lemma {:induction false} TrimStartBeforeSpace(s: string)
    ensures TrimStart(s + " ") == if Blank(s) then [] else TrimStart(s) + " "
  {
    if s == [] {
      assert TrimStart(s + " ") == TrimStart((s + " ")[1..]);
      assert (s + " ")[1..] == [];
    } else if IsSpace(s[0]) {
      assert (s + " ")[1..] == s[1..] + " ";
      TrimStartBeforeSpace(s[1..]);
      assert Blank(s) <==> Blank(s[1..]) by {
        assert forall i :: 1 <= i < |s| ==> s[i] == s[1..][i - 1];
      }
    }
  }

  /** Spaces around a query are trimmed away. */
  lemma TrimPadded(s: string)
    ensures Trim(" " + s + " ") == Trim(s)
  {
    assert (" " + s + " ")[1..] == s + " ";
    assert TrimStart(" " + s + " ") == TrimStart(s + " ");
    TrimStartBeforeSpace(s);
    if Blank(s) {
      TrimEmptyIffBlank(s);
    } else {
      var t := TrimStart(s);
      assert (t + " ")[..|t + " "| - 1] == t;
    }
  }

  function Lower(c: char): char {
    if 'A' <= c <= 'Z' then (c as int + 32) as char else c
  }

  function Upper(c: char): char {
    if 'a' <= c <= 'z' then (c as int - 32) as char else c
  }

  /** String.prototype.toLowerCase */
  function ToLower(s: string): (r: string)
    ensures |r| == |s|
  {
    seq(|s|, i requires 0 <= i < |s| => Lower(s[i]))
  }

  function ToUpper(s: string): (r: string)
    ensures |r| == |s|
  {
    seq(|s|, i requires 0 <= i < |s| => Upper(s[i]))
  }

  lemma LowerIdempotent(s: string)
    ensures ToLower(ToLower(s)) == ToLower(s)
  {
  }

  /** String.prototype.startsWith */
  predicate StartsWith(s: string, prefix: string) {
    |prefix| <= |s| && s[..|prefix|] == prefix
  }

  /** String.prototype.endsWith */
  predicate EndsWith(s: string, suffix: string) {
    |suffix| <= |s| && s[|s| - |suffix|..] == suffix
  }

  /** String.prototype.includes */
  predicate Contains(s: string, needle: string) {
    exists i | 0 <= i <= |s| :: StartsWith(s[i..], needle)
  }

  lemma ContainsEmpty(s: string)
    ensures Contains(s, "")
  {
    assert StartsWith(s[0..], "");
  }

  lemma ContainsItself(s: string)
    ensures Contains(s, s)
  {
    assert StartsWith(s[0..], s);
  }

  /** String.prototype.split with a one-character separator. */
  function Split(s: string, sep: char): (r: seq<string>)
    ensures |r| >= 1
    ensures forall i :: 0 <= i < |r| ==> sep !in r[i]
  {
    SplitFrom(s, sep, [])
  }

  function SplitFrom(s: string, sep: char, current: string): (r: seq<string>)
    requires sep !in current
    ensures |r| >= 1
    ensures forall i :: 0 <= i < |r| ==> sep !in r[i]
    decreases |s|
  {
    if s == [] then [current]
    else if s[0] == sep then [current] + SplitFrom(s[1..], sep, [])
    else SplitFrom(s[1..], sep, current + [s[0]])
  }

  /** Array.prototype.join */
  function Join(parts: seq<string>, sep: string): string {
    if parts == [] then []
    else if |parts| == 1 then parts[0]
    else parts[0] + sep + Join(parts[1..], sep)
  }

  lemma {:induction false} JoinSplitFrom(s: string, sep: char, current: string)
    requires sep !in current
    ensures Join(SplitFrom(s, sep, current), [sep]) == current + s
    decreases |s|
  {
    if s == [] {
    } else if s[0] == sep {
      JoinSplitFrom(s[1..], sep, []);
      assert s == [sep] + s[1..];
    } else {
      JoinSplitFrom(s[1..], sep, current + [s[0]]);
      assert current + [s[0]] + s[1..] == current + s;
    }
  }

  /** Splitting on a character and joining with it again gives back the string. */
  lemma JoinSplit(s: string, sep: char)
    ensures Join(Split(s, sep), [sep]) == s
  {
    JoinSplitFrom(s, sep, []);
  }

  /** A piece without the separator stays whole, joined to the piece in progress. */
  lemma {:induction false} SplitFromNoSep(s: string, sep: char, current: string)
    requires sep !in current && sep !in s
    ensures SplitFrom(s, sep, current) == [current + s]
    decreases |s|
  {
    if s != [] {
      SplitFromNoSep(s[1..], sep, current + [s[0]]);
      assert current + [s[0]] + s[1..] == current + s;
    } else {
      assert current + s == current;
    }
  }

  /** The last piece of a split is whatever follows the last separator. */
  lemma {:induction false} SplitFromLast(s: string, sep: char, current: string, last: string)
    requires sep !in current && sep !in last
    ensures var r := SplitFrom(s + [sep] + last, sep, current); r[|r| - 1] == last
    decreases |s|
  {
    var t := s + [sep] + last;
    if s == [] {
      assert t == [sep] + last;
      assert t[1..] == last;
      SplitFromNoSep(last, sep, []);
    } else {
      assert t[0] == s[0];
      assert t[1..] == s[1..] + [sep] + last;
      if s[0] == sep {
        SplitFromLast(s[1..], sep, [], last);
      } else {
        SplitFromLast(s[1..], sep, current + [s[0]], last);
      }
    }
  }

  /** `s.split(sep).pop()` when `s` holds the separator: the text after its last occurrence. */
  lemma SplitLast(s: string, sep: char, last: string)
    requires sep !in last
    ensures var r := Split(s + [sep] + last, sep); r[|r| - 1] == last
  {
    SplitFromLast(s, sep, [], last);
  }

  /** String.prototype.repeat */
  function Repeat(s: string, n: nat): (r: string)
    ensures |r| == n * |s|
  {
    if n == 0 then [] else s + Repeat(s, n - 1)
  }

  lemma {:induction false} RepeatAt(c: char, n: nat, i: nat)
    requires i < n
    ensures |Repeat([c], n)| == n && Repeat([c], n)[i] == c
  {
    if i > 0 { RepeatAt(c, n - 1, i - 1); }
  }

  function DigitChar(d: nat): char
    requires d < 10
  {
    ('0' as int + d) as char
  }

  function DigitValue(c: char): nat
    requires IsDigit(c)
  {
    c as int - '0' as int
  }

  /** Number.prototype.toString for a non-negative integer. */
  function NatToString(n: nat): (r: string)
    ensures |r| >= 1
    ensures forall i :: 0 <= i < |r| ==> IsDigit(r[i])
    ensures r[0] == '0' ==> n == 0
  {
    if n < 10 then [DigitChar(n)] else NatToString(n / 10) + [DigitChar(n % 10)]
  }

  /** parseInt on a string of decimal digits. */
  function ParseDigits(s: string): nat
    requires forall i :: 0 <= i < |s| ==> IsDigit(s[i])
  {
    if s == [] then 0 else 10 * ParseDigits(s[..|s| - 1]) + DigitValue(s[|s| - 1])
  }

  function Pow10(n: nat): (r: nat)
    ensures r >= 1
  {
    if n == 0 then 1 else 10 * Pow10(n - 1)
  }

  /** A string of k digits denotes a number below 10^k. */
  lemma {:induction false} ParseDigitsBound(s: string)
    requires forall i :: 0 <= i < |s| ==> IsDigit(s[i])
    ensures ParseDigits(s) < Pow10(|s|)
  {
    if s != [] {
      ParseDigitsBound(s[..|s| - 1]);
    }
  }

  lemma Scale10(x: int, y: int)
    ensures 10 * (x * y) == x * (10 * y)
  {
  }

  /** The value of two digit strings written one after the other. */
  lemma {:induction false} ParseDigitsAppend(a: string, b: string)
    requires forall i :: 0 <= i < |a| ==> IsDigit(a[i])
    requires forall i :: 0 <= i < |b| ==> IsDigit(b[i])
    ensures ParseDigits(a + b) == ParseDigits(a) * Pow10(|b|) + ParseDigits(b)
    decreases |b|
  {
    if b != [] {
      var b' := b[..|b| - 1];
      ParseDigitsAppend(a, b');
      assert (a + b)[..|a + b| - 1] == a + b';
      assert (a + b)[|a + b| - 1] == b[|b| - 1];
      var pa, pb, d, p := ParseDigits(a), ParseDigits(b'), DigitValue(b[|b| - 1]), Pow10(|b'|);
      assert ParseDigits(a + b) == 10 * (pa * p + pb) + d;
      assert ParseDigits(b) == 10 * pb + d;
      assert Pow10(|b|) == 10 * p;
      Scale10(pa, p);
    } else {
      assert a + b == a;
    }
  }

  lemma {:induction false} ParseNatToString(n: nat)
    ensures ParseDigits(NatToString(n)) == n
  {
    if n >= 10 {
      ParseNatToString(n / 10);
      var r := NatToString(n);
      assert r[..|r| - 1] == NatToString(n / 10);
    }
  }

  lemma NatToStringShort(n: nat)
    ensures n < 10 ==> |NatToString(n)| == 1
    ensures 10 <= n < 100 ==> |NatToString(n)| == 2
  {
  }

  /** String(n).padStart(2, "0") for 0 <= n < 100. */
  function Pad2(n: nat): (r: string)
    requires n < 100
    ensures |r| == 2 && IsDigit(r[0]) && IsDigit(r[1])
  {
    [DigitChar(n / 10), DigitChar(n % 10)]
  }

  lemma ParsePad2(n: nat)
    requires n < 100
    ensures ParseDigits(Pad2(n)) == n
  {
    var r := Pad2(n);
    assert r[..1] == [r[0]];
    assert ParseDigits(r[..1]) == DigitValue(r[0]) by {
      assert r[..1][..0] == [];
    }
  }

  /** Every character of `s` satisfies `p`. */
  predicate AllChars(s: string, p: char -> bool) {
    forall i :: 0 <= i < |s| ==> p(s[i])
  }

  /** `a || b` on strings: the empty string is falsy. */
  function OrElse(a: string, b: string): (r: string)
    ensures a != "" ==> r == a
    ensures a == "" ==> r == b
  {
    if a != "" then a else b
  }

  /** The summed length of the parts. */
  function TotalLength(parts: seq<string>): nat {
    if parts == [] then 0 else |parts[0]| + TotalLength(parts[1..])
  }

  /** Joining without a separator loses and adds no characters. */
  lemma {:induction false} JoinNoSepLength(parts: seq<string>)
    ensures |Join(parts, "")| == TotalLength(parts)
  {
    if |parts| == 1 {
      assert parts[1..] == [];
    } else if parts != [] {
      JoinNoSepLength(parts[1..]);
    }
  }

  /** Parts of at most one character join into one character per non-empty part. */
  lemma {:induction false} JoinSinglesLength(parts: seq<string>)
    requires forall i :: 0 <= i < |parts| ==> |parts[i]| <= 1
    ensures |Join(parts, "")| <= |parts|
    ensures |Join(parts, "")| == |parts| <==> forall i :: 0 <= i < |parts| ==> parts[i] != ""
  {
    JoinNoSepLength(parts);
    TotalLengthOfSingles(parts);
  }

  lemma {:induction false} TotalLengthOfSingles(parts: seq<string>)
    requires forall i :: 0 <= i < |parts| ==> |parts[i]| <= 1
    ensures TotalLength(parts) <= |parts|
    ensures TotalLength(parts) == |parts| <==> forall i :: 0 <= i < |parts| ==> parts[i] != ""
  {
    if parts != [] {
      TotalLengthOfSingles(parts[1..]);
      if forall i :: 0 <= i < |parts| ==> parts[i] != "" {
        assert forall i :: 0 <= i < |parts[1..]| ==> parts[1..][i] != "" by {
          forall i | 0 <= i < |parts[1..]| ensures parts[1..][i] != "" {
            assert parts[1..][i] == parts[i + 1];
          }
        }
      }
    }
  }

  /** `a < b` on strings: lexicographic by code unit. */
  predicate StringLess(a: string, b: string) {
    if a == [] then b != []
    else if b == [] then false
    else if a[0] != b[0] then a[0] < b[0]
    else StringLess(a[1..], b[1..])
  }

  lemma {:induction false} StringLessIrreflexive(a: string)
    ensures !StringLess(a, a)
  {
    if a != [] {
      StringLessIrreflexive(a[1..]);
    }
  }

  lemma {:induction false} StringLessTransitive(a: string, b: string, c: string)
    requires StringLess(a, b) && StringLess(b, c)
    ensures StringLess(a, c)
  {
    if a != [] && b != [] && c != [] && a[0] == b[0] == c[0] {
      StringLessTransitive(a[1..], b[1..], c[1..]);
    }
  }

  /** Two different strings are ordered one way or the other. */
  lemma {:induction false} StringLessTotal(a: string, b: string)
    ensures a == b || StringLess(a, b) || StringLess(b, a)
  {
    if a != [] && b != [] && a[0] == b[0] {
      StringLessTotal(a[1..], b[1..]);
      if a[1..] == b[1..] {
        assert a == [a[0]] + a[1..] && b == [b[0]] + b[1..];
      }
    }
  }
}
