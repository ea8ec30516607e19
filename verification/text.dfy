/** Strings as the Go `strings` package sees them. */
module Text {
  /** The substring t stands at position i of s. */
  predicate At(s: string, t: string, i: int) {
    0 <= i <= |s| - |t| && s[i..i + |t|] == t
  }

  /** strings.Contains */
  predicate Contains(s: string, t: string) {
    exists i :: 0 <= i <= |s| - |t| && At(s, t, i)
  }

  /** strings.ToUpper on one ASCII letter; every other character is kept. */
  function Upper(c: char): char {
    if 'a' <= c <= 'z' then (c as int - 32) as char else c
  }

  /** strings.ToUpper */
  function ToUpper(s: string): (u: string)
    ensures |u| == |s| && forall i :: 0 <= i < |s| ==> u[i] == Upper(s[i])
  {
    if s == "" then "" else [Upper(s[0])] + ToUpper(s[1..])
  }

  /** unicode.IsSpace */
  predicate IsSpace(c: char) {
    || c in " \t\n\r" || c == '\U{0B}' || c == '\U{0C}' || c == '\U{85}' || c == '\U{A0}'
    || c == '\U{1680}' || '\U{2000}' <= c <= '\U{200A}' || c in "\U{2028}\U{2029}\U{202F}\U{205F}\U{3000}"
  }

  function TrimLeft(s: string, p: char -> bool): string {
    if s != "" && p(s[0]) then TrimLeft(s[1..], p) else s
  }

  function TrimRight(s: string, p: char -> bool): string {
    if s != "" && p(s[|s| - 1]) then TrimRight(s[..|s| - 1], p) else s
  }

  function Trim(s: string, p: char -> bool): string {
    TrimRight(TrimLeft(s, p), p)
  }

  /** strings.TrimSpace */
  function TrimSpace(s: string): string {
    Trim(s, IsSpace)
  }

  /** strings.Split with a one-character separator. */
  function Split(s: string, sep: char): (parts: seq<string>)
    ensures |parts| >= 1
  {
    if s == "" then [""]
    else
      var rest := Split(s[1..], sep);
      if s[0] == sep then [""] + rest else [[s[0]] + rest[0]] + rest[1..]
  }

  /** A character of t that s lacks rules t out as a substring. */
  lemma MissingChar(s: string, t: string, k: nat)
    requires k < |t| && t[k] !in s
    ensures !Contains(s, t)
  {
    forall i | 0 <= i <= |s| - |t| ensures !At(s, t, i) {
      assert s[i..i + |t|][k] == s[i + k];
    }
  }

  lemma CharAt(s: string, t: string, i: int, k: nat)
    requires At(s, t, i) && k < |t|
    ensures s[i + k] == t[k]
  {
    assert s[i..i + |t|][k] == s[i + k];
  }

  /** The text up to the first separator is the first part. */
  lemma {:induction false} SplitAt(s: string, sep: char, rest: string)
    requires sep !in s
    ensures Split(s + [sep] + rest, sep) == [s] + Split(rest, sep)
  {
    if s == "" {
      assert (s + [sep] + rest)[1..] == rest;
    } else {
      assert (s + [sep] + rest)[1..] == s[1..] + [sep] + rest;
      SplitAt(s[1..], sep, rest);
      assert s[0] in s && [s[0]] + s[1..] == s;
    }
  }

  lemma {:induction false} SplitNone(s: string, sep: char)
    requires sep !in s
    ensures Split(s, sep) == [s]
  {
    if s != "" {
      SplitNone(s[1..], sep);
      assert s[0] in s && [s[0]] + s[1..] == s;
    }
  }

  function Joined(parts: seq<string>, sep: char): string
    requires parts != []
  {
    if |parts| == 1 then parts[0] else parts[0] + [sep] + Joined(parts[1..], sep)
  }

  /** The parts are not empty as a list, hold no separator, and give the text when they are joined. */
  predicate PartsOf(parts: seq<string>, s: string, sep: char) {
    parts != [] && Joined(parts, sep) == s && forall i :: 0 <= i < |parts| ==> sep !in parts[i]
  }

  lemma JoinedLonger(c: char, parts: seq<string>, sep: char)
    requires parts != []
    ensures Joined([[c] + parts[0]] + parts[1..], sep) == [c] + Joined(parts, sep)
  {
    var longer := [[c] + parts[0]] + parts[1..];
    if |parts| > 1 {
      assert longer[1..] == parts[1..];
      assert ([c] + parts[0]) + [sep] == [c] + (parts[0] + [sep]);
    }
  }

  lemma JoinedEmpty(parts: seq<string>, sep: char)
    requires parts != []
    ensures Joined([""] + parts, sep) == [sep] + Joined(parts, sep)
  {
    assert ([""] + parts)[1..] == parts;
  }

  lemma {:induction false} SplitGivesParts(s: string, sep: char)
    ensures PartsOf(Split(s, sep), s, sep)
  {
    if s != "" {
      var rest := Split(s[1..], sep);
      SplitGivesParts(s[1..], sep);
      JoinedEmpty(rest, sep);
      JoinedLonger(s[0], rest, sep);
      assert s == [s[0]] + s[1..];
    }
  }

  lemma {:induction false} PartsAreSplit(parts: seq<string>, s: string, sep: char)
    requires PartsOf(parts, s, sep)
    ensures Split(s, sep) == parts
  {
    if |parts| == 1 {
      SplitNone(s, sep);
    } else {
      PartsAreSplit(parts[1..], Joined(parts[1..], sep), sep);
      SplitAt(parts[0], sep, Joined(parts[1..], sep));
    }
  }

  /** Splitting is the inverse of joining. */
  lemma SplitExactly(s: string, sep: char, parts: seq<string>)
    ensures Split(s, sep) == parts <==> PartsOf(parts, s, sep)
  {
    SplitGivesParts(s, sep);
    if PartsOf(parts, s, sep) {
      PartsAreSplit(parts, s, sep);
    }
  }

  /** s is a, one separator, and b. */
  predicate InTwo(s: string, sep: char, a: string, b: string) {
    s == a + [sep] + b && sep !in a && sep !in b
  }

  lemma SplitInTwo(s: string, sep: char, a: string, b: string)
    ensures Split(s, sep) == [a, b] <==> InTwo(s, sep, a, b)
  {
    SplitExactly(s, sep, [a, b]);
    assert Joined([a, b], sep) == a + [sep] + Joined([b], sep);
  }

  /** t is s from position i on; what surrounds it are characters of p, and none of them stands at its ends. */
  ghost predicate CutAt(s: string, t: string, i: nat, p: char -> bool) {
    && i + |t| <= |s| && s[i..i + |t|] == t
    && (forall k :: 0 <= k < i || i + |t| <= k < |s| ==> p(s[k]))
    && (t != "" ==> !p(t[0]) && !p(t[|t| - 1]))
  }

  ghost predicate Cut(s: string, t: string, p: char -> bool) {
    exists i :: CutAt(s, t, i, p)
  }

  /** unicode.IsSpace by code points. */
  lemma SpaceCodes(c: char)
    ensures var n := c as int;
            IsSpace(c) <==> 9 <= n <= 13 || n == 32 || n == 133 || n == 160 || n == 5760 || 8192 <= n <= 8202
                            || n == 8232 || n == 8233 || n == 8239 || n == 8287 || n == 12288
  {
  }

  lemma {:induction false} LeftCut(s: string, p: char -> bool) returns (i: nat)
    ensures i <= |s| && TrimLeft(s, p) == s[i..] && (forall k :: 0 <= k < i ==> p(s[k]))
    ensures i < |s| ==> !p(s[i])
  {
    i := 0;
    if s != "" && p(s[0]) {
      var j := LeftCut(s[1..], p);
      i := j + 1;
      forall k | 0 <= k < i ensures p(s[k]) {
        assert k > 0 ==> s[k] == s[1..][k - 1];
      }
    }
  }

  lemma {:induction false} RightCut(s: string, p: char -> bool) returns (i: nat)
    ensures i <= |s| && TrimRight(s, p) == s[..i] && (forall k :: i <= k < |s| ==> p(s[k]))
    ensures i > 0 ==> !p(s[i - 1])
  {
    i := |s|;
    if s != "" && p(s[|s| - 1]) {
      i := RightCut(s[..|s| - 1], p);
      assert s[..|s| - 1][..i] == s[..i];
    }
  }

  lemma TrimCuts(s: string, p: char -> bool)
    ensures Cut(s, Trim(s, p), p)
  {
    var i := LeftCut(s, p);
    var j := RightCut(s[i..], p);
    var t := Trim(s, p);
    assert t == s[i..][..j] == s[i..i + |t|];
    forall k | i + |t| <= k < |s| ensures p(s[k]) {
      assert s[k] == s[i..][k - i];
    }
    assert CutAt(s, t, i, p);
  }

  lemma CutOnce(s: string, t: string, i: nat, u: string, j: nat, p: char -> bool)
    requires CutAt(s, t, i, p) && CutAt(s, u, j, p) && t != ""
    ensures t == u
  {
    assert !p(s[i]) && !p(s[i + |t| - 1]);
    assert u != "" ==> !p(s[j]) && !p(s[j + |u| - 1]);
  }

  /** Trimming cuts characters of p off both ends until none is left there. */
  lemma TrimExactly(s: string, t: string, p: char -> bool)
    ensures Trim(s, p) == t <==> Cut(s, t, p)
  {
    var u := Trim(s, p);
    TrimCuts(s, p);
    if Cut(s, t, p) {
      var i, j :| CutAt(s, t, i, p) && CutAt(s, u, j, p);
      if t != "" {
        CutOnce(s, t, i, u, j, p);
      } else if u != "" {
        CutOnce(s, u, j, t, i, p);
      }
    }
  }

  /** Each line followed by the end-of-line text. */
  function Unlines(lines: seq<string>, eol: string): string {
    if lines == [] then "" else lines[0] + eol + Unlines(lines[1..], eol)
  }

  /** Each line with a suffix. */
  function Suffixed(lines: seq<string>, suffix: string): seq<string> {
    seq(|lines|, i requires 0 <= i < |lines| => lines[i] + suffix)
  }

  /** Splitting printed lines at the newline gives the lines, with what their ends carry before the newline,
      and an empty last part. */
  lemma {:induction false} SplitUnlines(lines: seq<string>, cr: string)
    requires '\n' !in cr && forall i :: 0 <= i < |lines| ==> '\n' !in lines[i]
    ensures Split(Unlines(lines, cr + "\n"), '\n') == Suffixed(lines, cr) + [""]
  {
    if lines != [] {
      var rest := Unlines(lines[1..], cr + "\n");
      assert Unlines(lines, cr + "\n") == (lines[0] + cr) + ['\n'] + rest;
      SplitAt(lines[0] + cr, '\n', rest);
      SplitUnlines(lines[1..], cr);
      assert Suffixed(lines, cr) == [lines[0] + cr] + Suffixed(lines[1..], cr);
    }
  }
}
