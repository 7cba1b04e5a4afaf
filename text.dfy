/**
 * The few `java.lang.String` operations the command languages rely on:
 * `toUpperCase` (ASCII letters only), `trim`, `isBlank`, `split` with Java's
 * rule that trailing empty strings are dropped, `contains`, `indexOf`,
 * `replaceAll("[^0-9]", "")` and `Integer.parseInt` on the digits left over.
 */
module Text {
  import opened Wrappers

  function UpperChar(c: char): char {
    if 'a' <= c <= 'z' then (c as int - 32) as char else c
  }

  /** `s.toUpperCase()` for ASCII text. */
  function ToUpper(s: string): (r: string)
    ensures |r| == |s|
    ensures forall i :: 0 <= i < |s| ==> r[i] == UpperChar(s[i])
  {
    seq(|s|, i requires 0 <= i < |s| => UpperChar(s[i]))
  }

  lemma {:induction false} ToUpperIdempotent(s: string)
    ensures ToUpper(ToUpper(s)) == ToUpper(s)
  {
  }

  lemma {:induction false} ToUpperConcat(a: string, b: string)
    ensures ToUpper(a + b) == ToUpper(a) + ToUpper(b)
  {
    assert forall i :: 0 <= i < |a + b| ==> ToUpper(a + b)[i] == (ToUpper(a) + ToUpper(b))[i];
  }

  /** Upper-casing neither creates nor removes spaces. */
  lemma {:induction false} ToUpperKeepsSpaces(s: string)
    ensures ' ' in ToUpper(s) <==> ' ' in s
  {
    if ' ' in s {
      var i :| 0 <= i < |s| && s[i] == ' ';
      assert ToUpper(s)[i] == ' ';
    }
    if ' ' in ToUpper(s) {
      var i :| 0 <= i < |s| && ToUpper(s)[i] == ' ';
      assert s[i] == ' ';
    }
  }

  /** Characters `String.trim` removes: every code point up to U+0020. */
  predicate IsTrimmed(c: char) {
    c as int <= 0x20
  }

  /** Characters matched by the regular expression `\s`. */
  predicate IsRegexSpace(c: char) {
    c == ' ' || 0x09 <= c as int <= 0x0D
  }

  /** `Character.isWhitespace`: `\s`, the separators U+001C..U+001F, and Unicode spaces other than no-break ones. */
  predicate IsJavaWhitespace(c: char) {
    var n := c as int;
    IsRegexSpace(c) || 0x1C <= n <= 0x1F || n == 0x1680 || 0x2000 <= n <= 0x2006
    || 0x2008 <= n <= 0x200A || n == 0x2028 || n == 0x2029 || n == 0x205F || n == 0x3000
  }

  /** `s.isBlank()`. */
  predicate IsBlank(s: string) {
    forall i :: 0 <= i < |s| ==> IsJavaWhitespace(s[i])
  }

  function TrimStart(s: string): (r: string)
    ensures |r| <= |s| && r == s[|s| - |r|..]
    ensures r == [] || !IsTrimmed(r[0])
  {
    if |s| > 0 && IsTrimmed(s[0]) then TrimStart(s[1..]) else s
  }

  function TrimEnd(s: string): (r: string)
    ensures |r| <= |s| && r == s[..|r|]
    ensures r == [] || !IsTrimmed(r[|r| - 1])
  {
    if |s| > 0 && IsTrimmed(s[|s| - 1]) then TrimEnd(s[..|s| - 1]) else s
  }

  /** `s.trim()`. */
  function Trim(s: string): string {
    TrimEnd(TrimStart(s))
  }

  /** Upper-casing changes no character `trim` or `isBlank` looks at. */
  lemma {:induction false} UpperCharKeepsSpacing(c: char)
    ensures IsTrimmed(UpperChar(c)) <==> IsTrimmed(c)
    ensures IsJavaWhitespace(UpperChar(c)) <==> IsJavaWhitespace(c)
  {
  }

  lemma {:induction false} IsBlankIgnoresCase(s: string)
    ensures IsBlank(ToUpper(s)) <==> IsBlank(s)
  {
    forall i | 0 <= i < |s|
      ensures IsJavaWhitespace(ToUpper(s)[i]) <==> IsJavaWhitespace(s[i])
    {
      UpperCharKeepsSpacing(s[i]);
    }
  }

  lemma {:induction false} TrimStartIgnoresCase(s: string)
    ensures TrimStart(ToUpper(s)) == ToUpper(TrimStart(s))
    decreases |s|
  {
    if |s| > 0 {
      UpperCharKeepsSpacing(s[0]);
      assert ToUpper(s)[1..] == ToUpper(s[1..]);
      if IsTrimmed(s[0]) {
        TrimStartIgnoresCase(s[1..]);
      }
    }
  }

  lemma {:induction false} TrimEndIgnoresCase(s: string)
    ensures TrimEnd(ToUpper(s)) == ToUpper(TrimEnd(s))
    decreases |s|
  {
    if |s| > 0 {
      UpperCharKeepsSpacing(s[|s| - 1]);
      assert ToUpper(s)[..|s| - 1] == ToUpper(s[..|s| - 1]);
      if IsTrimmed(s[|s| - 1]) {
        TrimEndIgnoresCase(s[..|s| - 1]);
      }
    }
  }

  /** Trimming and upper-casing commute. */
  lemma {:induction false} TrimIgnoresCase(s: string)
    ensures Trim(ToUpper(s)) == ToUpper(Trim(s))
  {
    TrimStartIgnoresCase(s);
    TrimEndIgnoresCase(TrimStart(s));
  }

  /** The pieces of `s` between occurrences of `sep`, empty pieces included. */
  function Pieces(s: string, sep: char): (r: seq<string>)
    ensures |r| >= 1
  {
    if |s| == 0 then [""]
    else if s[0] == sep then [""] + Pieces(s[1..], sep)
    else var rest := Pieces(s[1..], sep); [[s[0]] + rest[0]] + rest[1..]
  }

  lemma {:induction false} PiecesWithoutSeparator(s: string, sep: char)
    requires sep !in s
    ensures Pieces(s, sep) == [s]
  {
    if |s| > 0 {
      assert s[0] != sep && sep !in s[1..];
      PiecesWithoutSeparator(s[1..], sep);
      assert [s[0]] + s[1..] == s;
    }
  }

  /** A separator-free prefix joins the first piece of what follows it. */
  lemma {:induction false} PiecesPrefix(a: string, rest: string, sep: char)
    requires sep !in a
    ensures Pieces(a + rest, sep) == [a + Pieces(rest, sep)[0]] + Pieces(rest, sep)[1..]
  {
    if |a| > 0 {
      assert (a + rest)[0] == a[0] != sep;
      assert (a + rest)[1..] == a[1..] + rest;
      assert sep !in a[1..];
      PiecesPrefix(a[1..], rest, sep);
      assert [a[0]] + (a[1..] + Pieces(rest, sep)[0]) == a + Pieces(rest, sep)[0];
    } else {
      var ps := Pieces(rest, sep);
      assert a + rest == rest && a + ps[0] == ps[0];
      assert [ps[0]] + ps[1..] == ps;
    }
  }

  /** Drops the trailing empty strings, as `String.split` does. */
  function DropTrailingEmpty(ps: seq<string>): (r: seq<string>)
    ensures |r| <= |ps| && r == ps[..|r|]
    ensures r == [] || r[|r| - 1] != ""
    ensures forall j :: 0 <= j < |ps| && ps[j] != "" ==> j < |r|
  {
    if |ps| > 0 && ps[|ps| - 1] == "" then DropTrailingEmpty(ps[..|ps| - 1]) else ps
  }

  /** `s.split(" ")` (a single-character separator). */
  function SplitOn(s: string, sep: char): seq<string> {
    if sep !in s then [s] else DropTrailingEmpty(Pieces(s, sep))
  }

  /** A word without the separator splits into itself. */
  lemma {:induction false} SplitOneWord(a: string, sep: char)
    requires sep !in a
    ensures SplitOn(a, sep) == [a]
  {
  }

  /** Two words joined by one separator split back into the two words. */
  lemma {:induction false} SplitTwoWords(a: string, b: string, sep: char)
    requires sep !in a && sep !in b && b != ""
    ensures SplitOn(a + [sep] + b, sep) == [a, b]
  {
    var s := a + [sep] + b;
    assert s[|a|] == sep;
    assert a + [sep] + b == a + ([sep] + b);
    PiecesPrefix(a, [sep] + b, sep);
    assert ([sep] + b)[1..] == b;
    PiecesWithoutSeparator(b, sep);
    assert Pieces([sep] + b, sep) == [""] + [b];
    assert a + "" == a;
  }

  /** A word followed by two separators splits into that word and, if anything follows, an empty word. */
  lemma {:induction false} SplitDoubledSeparator(a: string, rest: string, sep: char)
    requires sep !in a && a != ""
    ensures var parts := SplitOn(a + [sep, sep] + rest, sep);
            |parts| >= 1 && parts[0] == a && (|parts| >= 2 ==> parts[1] == "")
  {
    var tail := [sep, sep] + rest;
    assert a + [sep, sep] + rest == a + tail;
    assert (a + tail)[|a|] == sep;
    PiecesPrefix(a, tail, sep);
    assert tail[0] == sep && tail[1..][0] == sep;
    assert Pieces(tail, sep) == [""] + Pieces(tail[1..], sep);
    assert Pieces(tail[1..], sep)[0] == "";
    var ps := Pieces(a + tail, sep);
    assert ps[0] == a + "" == a && ps[1] == "";
  }

  function NonEmpty(ps: seq<string>): (r: seq<string>)
    ensures forall i :: 0 <= i < |r| ==> r[i] != ""
  {
    if ps == [] then []
    else if ps[0] == "" then NonEmpty(ps[1..])
    else [ps[0]] + NonEmpty(ps[1..])
  }

  /** The pieces of `s` between runs of `\s` characters. */
  function RunPieces(s: string): seq<string> {
    var ps := Pieces(s, ' ');
    [ps[0]] + NonEmpty(ps[1..])
  }

  /** Replaces each `\s` character by a space, so that one separator remains. */
  function SpacesOnly(s: string): (r: string)
    ensures |r| == |s|
  {
    seq(|s|, i requires 0 <= i < |s| => if IsRegexSpace(s[i]) then ' ' else s[i])
  }

  /** `s.split("\\s+")`. */
  function SplitOnWhitespace(s: string): seq<string> {
    var t := SpacesOnly(s);
    if ' ' !in t then [s] else DropTrailingEmpty(RunPieces(t))
  }

  /** `n` blanks. */
  function Blanks(n: nat): (r: string)
    ensures |r| == n && forall i :: 0 <= i < n ==> r[i] == ' '
  {
    if n == 0 then [] else [' '] + Blanks(n - 1)
  }

  lemma {:induction false} OneBlank()
    ensures Blanks(0) == [] && Blanks(1) == " "
  {
    assert Blanks(1) == [' '] + Blanks(0);
  }

  /** Trimming removes blanks around a text that starts and ends with a visible character. */
  lemma {:induction false} TrimBlanks(m: nat, t: string, n: nat)
    requires t != [] && !IsTrimmed(t[0]) && !IsTrimmed(t[|t| - 1])
    ensures Trim(Blanks(m) + t + Blanks(n)) == t
  {
    TrimStartBlanks(m, t + Blanks(n));
    assert Blanks(m) + t + Blanks(n) == Blanks(m) + (t + Blanks(n));
    TrimEndBlanks(t, n);
  }

  lemma {:induction false} TrimStartBlanks(m: nat, t: string)
    requires t != [] && !IsTrimmed(t[0])
    ensures TrimStart(Blanks(m) + t) == t
  {
    if m > 0 {
      assert (Blanks(m) + t)[1..] == Blanks(m - 1) + t;
      TrimStartBlanks(m - 1, t);
    } else {
      assert Blanks(0) + t == t;
    }
  }

  lemma {:induction false} TrimEndBlanks(t: string, n: nat)
    requires t != [] && !IsTrimmed(t[|t| - 1])
    ensures TrimEnd(t + Blanks(n)) == t
  {
    if n > 0 {
      assert (t + Blanks(n))[..|t| + n - 1] == t + Blanks(n - 1);
      TrimEndBlanks(t, n - 1);
    } else {
      assert t + Blanks(0) == t;
    }
  }

  /** Only a word remains of the pieces of a run of blanks followed by that word. */
  lemma {:induction false} PiecesAfterBlanks(n: nat, b: string)
    requires ' ' !in b && b != ""
    ensures NonEmpty(Pieces(Blanks(n) + b, ' ')) == [b]
  {
    if n == 0 {
      assert Blanks(0) + b == b;
      PiecesWithoutSeparator(b, ' ');
      assert NonEmpty([b]) == [b] + NonEmpty([]);
    } else {
      var s := Blanks(n) + b;
      assert s[0] == ' ' && s[1..] == Blanks(n - 1) + b;
      PiecesAfterBlanks(n - 1, b);
      var ps := Pieces(s, ' ');
      assert ps == [""] + Pieces(s[1..], ' ');
      assert ps[1..] == Pieces(s[1..], ' ');
    }
  }

  /** Two words separated by a run of blanks split, on `\s+`, into the two words. */
  lemma {:induction false} SplitTwoWordsOnBlanks(a: string, n: nat, b: string)
    requires n >= 1 && b != ""
    requires forall i :: 0 <= i < |a| ==> !IsRegexSpace(a[i])
    requires forall i :: 0 <= i < |b| ==> !IsRegexSpace(b[i])
    ensures SplitOnWhitespace(a + Blanks(n) + b) == [a, b]
  {
    var s := a + Blanks(n) + b;
    assert SpacesOnly(s) == s;
    assert s[|a|] == ' ';
    assert ' ' !in a && ' ' !in b;
    assert s == a + (Blanks(n) + b);
    PiecesPrefix(a, Blanks(n) + b, ' ');
    var rest := Blanks(n) + b;
    assert rest[0] == ' ' && rest[1..] == Blanks(n - 1) + b;
    var ps := Pieces(rest, ' ');
    assert ps == [""] + Pieces(rest[1..], ' ');
    assert ps[0] == "" && ps[1..] == Pieces(rest[1..], ' ');
    PiecesAfterBlanks(n - 1, b);
    assert a + "" == a;
    assert RunPieces(s) == [a, b];
  }

  /** `s.indexOf(sub)`, or None for -1. */
  function IndexOf(s: string, sub: string): (r: Option<nat>)
    ensures r.Some? ==> r.value + |sub| <= |s| && s[r.value..r.value + |sub|] == sub
  {
    IndexFrom(s, sub, 0)
  }

  function IndexFrom(s: string, sub: string, from: nat): (r: Option<nat>)
    ensures r.Some? ==> from <= r.value && r.value + |sub| <= |s| && s[r.value..r.value + |sub|] == sub
    decreases |s| + 1 - from
  {
    if from + |sub| > |s| then None
    else if s[from..from + |sub|] == sub then Some(from)
    else IndexFrom(s, sub, from + 1)
  }

  /** `s.contains(sub)`, which Java defines as `indexOf(sub) >= 0`. */
  predicate Contains(s: string, sub: string) {
    IndexOf(s, sub).Some?
  }

  /** An occurrence at `i` is found, at `i` or earlier. */
  lemma {:induction false} IndexFromFinds(s: string, sub: string, from: nat, i: nat)
    requires from <= i && i + |sub| <= |s| && s[i..i + |sub|] == sub
    ensures IndexFrom(s, sub, from).Some? && IndexFrom(s, sub, from).value <= i
    decreases i - from
  {
    if s[from..from + |sub|] != sub {
      IndexFromFinds(s, sub, from + 1, i);
    }
  }

  /** Containing a longer word means containing each of its prefixes. */
  lemma {:induction false} ContainsPrefix(s: string, w: string, x: string)
    requires Contains(s, w + x)
    ensures Contains(s, w)
  {
    var i := IndexOf(s, w + x).value;
    assert s[i..i + |w|] == (w + x)[..|w|] == w;
    IndexFromFinds(s, w, 0, i);
  }

  predicate IsDigit(c: char) {
    '0' <= c <= '9'
  }

  /** `s.replaceAll("[^0-9]", "")`. */
  function KeepDigits(s: string): (r: string)
    ensures forall i :: 0 <= i < |r| ==> IsDigit(r[i])
    ensures |r| <= |s|
  {
    if s == [] then []
    else if IsDigit(s[0]) then [s[0]] + KeepDigits(s[1..])
    else KeepDigits(s[1..])
  }

  /** The decimal value of a string of digits. */
  function DigitsValue(s: string): nat
    requires forall i :: 0 <= i < |s| ==> IsDigit(s[i])
  {
    if s == [] then 0
    else
      assert IsDigit(s[|s| - 1]);
      DigitsValue(s[..|s| - 1]) * 10 + (s[|s| - 1] as int - '0' as int)
  }

  const IntMax: int := 0x7fff_ffff

  /** `Integer.parseInt` on a string of digits: fails when it is empty or too large. */
  function ParseDigits(s: string): (r: Option<nat>)
    requires forall i :: 0 <= i < |s| ==> IsDigit(s[i])
    ensures r.Some? ==> r.value <= IntMax
  {
    if s == [] || DigitsValue(s) > IntMax then None else Some(DigitsValue(s))
  }

  function DigitChar(d: nat): char
    requires d < 10
  {
    ('0' as int + d) as char
  }

  /** `Integer.toString(n)` for a non-negative `n`. */
  function NatToString(n: nat): (r: string)
    ensures |r| >= 1
    ensures forall i :: 0 <= i < |r| ==> IsDigit(r[i])
  {
    if n < 10 then [DigitChar(n)] else NatToString(n / 10) + [DigitChar(n % 10)]
  }

  /** Printing a number and parsing it back gives the number again. */
  lemma {:induction false} NatToStringRoundTrip(n: nat)
    ensures DigitsValue(NatToString(n)) == n
  {
    if n >= 10 {
      NatToStringRoundTrip(n / 10);
      var s := NatToString(n);
      assert s[..|s| - 1] == NatToString(n / 10);
    }
  }
}
