/** Character classes and string operations shared by the Python backend and the
    browser code: whitespace as each language defines it, stripping, upper-casing,
    prefix tests and splitting at a separator. */
module Text {

  import opened Wrappers

  /** Python's `str.isspace`. */
  predicate IsPySpace(c: char) {
    '\t' <= c <= '\r' || '\U{1C}' <= c <= ' ' || c == '\U{85}' || c == '\U{A0}'
    || c == '\U{1680}' || '\U{2000}' <= c <= '\U{200A}' || c == '\U{2028}' || c == '\U{2029}'
    || c == '\U{202F}' || c == '\U{205F}' || c == '\U{3000}'
  }

  /** JavaScript's white space and line terminators (what `trim` removes and `\s` matches). */
  predicate IsJsSpace(c: char) {
    '\t' <= c <= '\r' || c == ' ' || c == '\U{A0}' || c == '\U{1680}' || '\U{2000}' <= c <= '\U{200A}'
    || c == '\U{2028}' || c == '\U{2029}' || c == '\U{202F}' || c == '\U{205F}' || c == '\U{3000}'
    || c == '\U{FEFF}'
  }

  /** Drops the leading characters that satisfy `isSpace`. */
  function TrimStart(s: string, isSpace: char -> bool): (r: string)
    ensures |r| <= |s| && r == s[|s| - |r|..]
    ensures forall k :: 0 <= k < |s| - |r| ==> isSpace(s[k])
    ensures r == [] || !isSpace(r[0])
  {
    if s != [] && isSpace(s[0]) then
      var r := TrimStart(s[1..], isSpace);
      assert forall k :: 1 <= k < |s| - |r| ==> s[k] == s[1..][k - 1];
      r
    else s
  }

  /** Drops the trailing characters that satisfy `isSpace`. */
  function TrimEnd(s: string, isSpace: char -> bool): (r: string)
    ensures |r| <= |s| && r == s[..|r|]
    ensures forall k :: |r| <= k < |s| ==> isSpace(s[k])
    ensures r == [] || !isSpace(r[|r| - 1])
  {
    if s != [] && isSpace(s[|s| - 1]) then
      var r := TrimEnd(s[..|s| - 1], isSpace);
      assert forall k :: |r| <= k < |s| - 1 ==> s[k] == s[..|s| - 1][k];
      r
    else s
  }

  /** Python's `str.strip()` / JavaScript's `trim()` for the given whitespace class:
      the longest middle slice that neither starts nor ends with whitespace. */
  function Trim(s: string, isSpace: char -> bool): (r: string)
    ensures |r| <= |s|
    ensures r == [] || (!isSpace(r[0]) && !isSpace(r[|r| - 1]))
    ensures (forall k :: 0 <= k < |s| ==> isSpace(s[k])) <==> r == []
  {
    var r := TrimEnd(TrimStart(s, isSpace), isSpace);
    if r == [] then r
    else
      var t := TrimStart(s, isSpace);
      assert r[0] == t[0] && t[0] == s[|s| - |t|];
      r
  }

  /** Trimming only removes characters: what is left comes from the input. */
  lemma TrimChars(s: string, isSpace: char -> bool)
    ensures forall k :: 0 <= k < |Trim(s, isSpace)| ==> Trim(s, isSpace)[k] in s
  {
    var t := TrimStart(s, isSpace);
    var r := Trim(s, isSpace);
    assert forall k :: 0 <= k < |r| ==> r[k] == t[k] && t[k] == s[|s| - |t| + k];
  }

  lemma {:induction false} TrimOfTrimmed(s: string, isSpace: char -> bool)
    requires s == [] || (!isSpace(s[0]) && !isSpace(s[|s| - 1]))
    ensures Trim(s, isSpace) == s
  {
    if s != [] {
      assert TrimStart(s, isSpace) == s;
      assert TrimEnd(s, isSpace) == s;
    }
  }

  lemma {:induction false} TrimStartAppendSpace(s: string, c: char, isSpace: char -> bool)
    requires isSpace(c)
    ensures TrimStart(s + [c], isSpace) == if TrimStart(s, isSpace) == [] then [] else TrimStart(s, isSpace) + [c]
  {
    if s != [] && isSpace(s[0]) {
      assert (s + [c])[1..] == s[1..] + [c];
      TrimStartAppendSpace(s[1..], c, isSpace);
    } else if s == [] {
      assert TrimStart([c], isSpace) == TrimStart([], isSpace);
    }
  }

  lemma TrimEndAppendSpace(s: string, c: char, isSpace: char -> bool)
    requires isSpace(c)
    ensures TrimEnd(s + [c], isSpace) == TrimEnd(s, isSpace)
  {
    assert (s + [c])[..|s|] == s;
  }

  /** A trailing space does not change what trimming keeps. */
  lemma TrimAppendSpace(s: string, c: char, isSpace: char -> bool)
    requires isSpace(c)
    ensures Trim(s + [c], isSpace) == Trim(s, isSpace)
  {
    TrimStartAppendSpace(s, c, isSpace);
    var t := TrimStart(s, isSpace);
    if t != [] {
      TrimEndAppendSpace(t, c, isSpace);
    }
  }

  /** JavaScript's `s.length`: UTF-16 code units, two for each character outside
      the Basic Multilingual Plane. */
  function JsLength(s: string): (n: nat)
    ensures |s| <= n <= 2 * |s|
    ensures n == |s| <==> forall i :: 0 <= i < |s| ==> s[i] as int <= 0xFFFF
  {
    if s == [] then 0
    else
      var n := (if s[0] as int > 0xFFFF then 2 else 1) + JsLength(s[1..]);
      assert forall i :: 1 <= i < |s| ==> s[i] == s[1..][i - 1];
      n
  }

  /** The upper-case form of one character, as Python's `str.upper` and JavaScript's
      `toUpperCase` give it for ASCII and Latin-1 (`ß` becomes "SS"). */
  function UpperChar(c: char): (r: string)
    ensures 1 <= |r| <= 2
  {
    if 'a' <= c <= 'z' then [(c as int - 32) as char]
    else if c == '\U{B5}' then ['\U{39C}']
    else if c == '\U{DF}' then "SS"
    else if '\U{E0}' <= c <= '\U{FE}' && c != '\U{F7}' then [(c as int - 32) as char]
    else if c == '\U{FF}' then ['\U{178}']
    else [c]
  }

  /** A character that upper-casing leaves alone. */
  predicate IsUpperFixed(c: char) {
    UpperChar(c) == [c]
  }

  lemma UpperCharIsFixed(c: char)
    ensures forall k :: 0 <= k < |UpperChar(c)| ==> IsUpperFixed(UpperChar(c)[k])
  {
  }

  function Upper(s: string): (r: string)
    ensures forall i :: 0 <= i < |r| ==> IsUpperFixed(r[i])
    ensures |r| >= |s|
  {
    if s == [] then []
    else
      UpperCharIsFixed(s[0]);
      UpperChar(s[0]) + Upper(s[1..])
  }

  lemma {:induction false} UpperOfFixed(s: string)
    requires forall i :: 0 <= i < |s| ==> IsUpperFixed(s[i])
    ensures Upper(s) == s
  {
    if s != [] {
      UpperOfFixed(s[1..]);
    }
  }

  lemma {:induction false} UpperConcat(a: string, b: string)
    ensures Upper(a + b) == Upper(a) + Upper(b)
  {
    if a != [] {
      assert (a + b)[1..] == a[1..] + b;
      UpperConcat(a[1..], b);
    } else {
      assert a + b == b;
    }
  }

  /** Upper-casing is idempotent. */
  lemma UpperIdempotent(s: string)
    ensures Upper(Upper(s)) == Upper(s)
  {
    UpperOfFixed(Upper(s));
  }

  /** ASCII-only lower-casing, as SQL's case-insensitive comparison applies it. */
  function AsciiLower(s: string): (r: string)
    ensures |r| == |s|
    ensures forall i :: 0 <= i < |s| ==> r[i] == if 'A' <= s[i] <= 'Z' then (s[i] as int + 32) as char else s[i]
  {
    if s == [] then [] else
      [if 'A' <= s[0] <= 'Z' then (s[0] as int + 32) as char else s[0]] + AsciiLower(s[1..])
  }

  /** `s.startsWith(p)` */
  predicate StartsWith(s: string, p: string) {
    |p| <= |s| && s[..|p|] == p
  }

  /** `sep` occurs in `s` at position `j`. */
  predicate OccursAt(s: string, sep: string, j: nat) {
    j + |sep| <= |s| && s[j..j + |sep|] == sep
  }

  /** Index of the first occurrence of `sep` in `s`. */
  function Find(s: string, sep: string): (r: Option<nat>)
    requires |sep| > 0
    ensures r.Some? ==> OccursAt(s, sep, r.value)
    ensures r.Some? ==> forall j: nat :: j < r.value ==> !OccursAt(s, sep, j)
    ensures r.None? ==> forall j: nat :: !OccursAt(s, sep, j)
    decreases |s|
  {
    if |s| < |sep| then None
    else if s[..|sep|] == sep then Some(0)
    else
      assert !OccursAt(s, sep, 0);
      assert forall j: nat :: 1 <= j ==> OccursAt(s, sep, j) == OccursAt(s[1..], sep, j - 1) by {
        forall j: nat | 1 <= j ensures OccursAt(s, sep, j) == OccursAt(s[1..], sep, j - 1) {
          if j + |sep| <= |s| {
            var here, there := s[j..j + |sep|], s[1..][j - 1..j - 1 + |sep|];
            assert forall k :: 0 <= k < |sep| ==> here[k] == there[k];
            assert here == there;
          }
        }
      }
      match Find(s[1..], sep)
      case None => None
      case Some(i) => Some(i + 1)
  }

  /** JavaScript's `s.split(sep)` for a non-empty separator string. */
  function Split(s: string, sep: string): (parts: seq<string>)
    requires |sep| > 0
    ensures |parts| >= 1
    decreases |s|
  {
    match Find(s, sep)
    case None => [s]
    case Some(i) => [s[..i]] + Split(s[i + |sep|..], sep)
  }

  lemma {:induction false} FindAfterSepFree(a: string, sep: string, b: string)
    requires |sep| > 0 && sep[0] !in a
    ensures Find(a + sep + b, sep) == Some(|a|)
  {
    var s := a + sep + b;
    if a == [] {
      assert s[..|sep|] == sep;
    } else {
      assert s[0] == a[0] != sep[0];
      assert s[1..] == a[1..] + sep + b;
      FindAfterSepFree(a[1..], sep, b);
    }
  }

  lemma {:induction false} FindNone(b: string, sep: string)
    requires |sep| > 0 && sep[0] !in b
    ensures Find(b, sep) == None
  {
    if |b| >= |sep| {
      assert b[0] != sep[0];
      assert b[1..] != [] ==> b[1..][0] == b[1];
      FindNone(b[1..], sep);
    }
  }

  /** Text lacking the separator's second character does not contain it. */
  lemma FindNoneSecond(b: string, sep: string)
    requires |sep| >= 2 && sep[1] !in b
    ensures Find(b, sep) == None
  {
  }

  /** Splitting text made of pieces that never contain the separator's first
      character gives back those pieces. */
  lemma SplitTwo(a: string, sep: string, b: string)
    requires |sep| > 0 && sep[0] !in a && sep[0] !in b
    ensures Split(a + sep + b, sep) == [a, b]
  {
    FindAfterSepFree(a, sep, b);
    var s := a + sep + b;
    assert s[..|a|] == a;
    assert s[|a| + |sep|..] == b;
    FindNone(b, sep);
  }

  lemma SplitThree(a: string, sep: string, b: string, c: string)
    requires |sep| > 0 && sep[0] !in a && sep[0] !in b && sep[0] !in c
    ensures Split(a + sep + b + sep + c, sep) == [a, b, c]
  {
    var s := a + sep + b + sep + c;
    assert s == a + sep + (b + sep + c);
    FindAfterSepFree(a, sep, b + sep + c);
    assert s[..|a|] == a;
    assert s[|a| + |sep|..] == b + sep + c;
    SplitTwo(b, sep, c);
  }

  /** `parts.join(sep)`. */
  function Join(parts: seq<string>, sep: string): string {
    if parts == [] then []
    else if |parts| == 1 then parts[0]
    else parts[0] + sep + Join(parts[1..], sep)
  }

  /** The first piece of a split ends at the first separator. */
  lemma SplitFirst(a: string, sep: string, rest: string)
    requires |sep| > 0 && sep[0] !in a
    ensures Split(a + sep + rest, sep) == [a] + Split(rest, sep)
  {
    var s := a + sep + rest;
    FindAfterSepFree(a, sep, rest);
    assert s[..|a|] == a;
    assert s[|a| + |sep|..] == rest;
  }

  /** Splitting a join gives the parts back when none of them holds the
      separator's first character. */
  lemma {:induction false} SplitJoin(parts: seq<string>, sep: string)
    requires |sep| > 0 && |parts| >= 1
    requires forall k :: 0 <= k < |parts| ==> sep[0] !in parts[k]
    ensures Split(Join(parts, sep), sep) == parts
  {
    if |parts| == 1 {
      FindNone(parts[0], sep);
    } else {
      var tail := parts[1..];
      assert forall k :: 0 <= k < |tail| ==> tail[k] == parts[k + 1];
      SplitFirst(parts[0], sep, Join(tail, sep));
      SplitJoin(tail, sep);
      assert parts == [parts[0]] + tail;
    }
  }
}
