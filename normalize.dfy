/** crud.py's `normalize_string`: the key under which product groups that differ only
    in accents, case or surrounding white space are treated as one category. */
module Normalize {

  import opened Wrappers
  import Text

  /** A combining diacritical mark (Unicode block U+0300..U+036F, category Mn). */
  predicate IsCombiningMark(c: char) {
    '\U{300}' <= c <= '\U{36F}'
  }

  /** Base letter and combining mark of an upper-case precomposed Latin-1 letter
      `U+00C0..U+00DD`; `None` for the letters without a canonical decomposition. */
  function UpperBaseAndMark(u: int): (r: Option<(char, char)>)
    ensures r.Some? ==> 'A' <= r.value.0 <= 'Z' && IsCombiningMark(r.value.1)
  {
    var acc := [0x300, 0x301, 0x302, 0x303, 0x308, 0x30A];
    var vowel := [0x300, 0x301, 0x302, 0x308];
    if 0xC0 <= u <= 0xC5 then Some(('A', acc[u - 0xC0] as char))
    else if u == 0xC7 then Some(('C', '\U{327}'))
    else if 0xC8 <= u <= 0xCB then Some(('E', vowel[u - 0xC8] as char))
    else if 0xCC <= u <= 0xCF then Some(('I', vowel[u - 0xCC] as char))
    else if u == 0xD1 then Some(('N', '\U{303}'))
    else if 0xD2 <= u <= 0xD6 then Some(('O', acc[u - 0xD2] as char))
    else if 0xD9 <= u <= 0xDC then Some(('U', vowel[u - 0xD9] as char))
    else if u == 0xDD then Some(('Y', '\U{301}'))
    else None
  }

  /** The canonical decomposition (NFD) of one character, for the Latin-1 letters;
      every other character is left as it is. */
  function DecomposeChar(c: char): (r: string)
    ensures |r| == 1 || |r| == 2
    ensures |r| == 2 ==> ('A' <= r[0] <= 'Z' || 'a' <= r[0] <= 'z') && IsCombiningMark(r[1])
  {
    var n := c as int;
    if 0xC0 <= n <= 0xDD && UpperBaseAndMark(n).Some? then
      var bm := UpperBaseAndMark(n).value;
      [bm.0, bm.1]
    else if 0xE0 <= n <= 0xFD && UpperBaseAndMark(n - 0x20).Some? then
      var bm := UpperBaseAndMark(n - 0x20).value;
      [(bm.0 as int + 0x20) as char, bm.1]
    else if n == 0xFF then ['y', '\U{308}']
    else if n == 0x178 then ['Y', '\U{308}']
    else [c]
  }

  /** A letter that canonical decomposition splits into base and mark. */
  predicate IsPrecomposed(c: char) {
    |DecomposeChar(c)| == 2
  }

  function Decompose(s: string): (r: string)
    ensures forall i :: 0 <= i < |r| ==> !IsPrecomposed(r[i])
  {
    if s == [] then []
    else
      var d := DecomposeChar(s[0]);
      assert |d| == 1 ==> d == [s[0]];
      d + Decompose(s[1..])
  }

  lemma {:induction false} DecomposeUnchanged(s: string)
    requires forall i :: 0 <= i < |s| ==> !IsPrecomposed(s[i])
    ensures Decompose(s) == s
  {
    if s != [] {
      DecomposeUnchanged(s[1..]);
    }
  }

  /** Drops the combining marks (`unicodedata.category(c) != 'Mn'`). */
  function RemoveMarks(s: string): (r: string)
    ensures forall i :: 0 <= i < |r| ==> !IsCombiningMark(r[i])
    ensures (forall i :: 0 <= i < |s| ==> !IsCombiningMark(s[i])) ==> r == s
  {
    if s == [] then []
    else if IsCombiningMark(s[0]) then RemoveMarks(s[1..])
    else [s[0]] + RemoveMarks(s[1..])
  }

  /** Every character that survives comes from the input. */
  lemma {:induction false} RemoveMarksKeeps(s: string)
    ensures forall i :: 0 <= i < |RemoveMarks(s)| ==> RemoveMarks(s)[i] in s
  {
    if s != [] {
      RemoveMarksKeeps(s[1..]);
      assert forall c :: c in s[1..] ==> c in s;
    }
  }

  /** Upper-casing neither creates a combining mark nor a letter that would decompose. */
  lemma UpperCharKeepsPlain(c: char)
    requires !IsPrecomposed(c) && !IsCombiningMark(c)
    ensures forall k :: 0 <= k < |Text.UpperChar(c)| ==>
      !IsPrecomposed(Text.UpperChar(c)[k]) && !IsCombiningMark(Text.UpperChar(c)[k])
  {
  }

  lemma {:induction false} UpperKeepsPlain(s: string)
    requires forall i :: 0 <= i < |s| ==> !IsPrecomposed(s[i]) && !IsCombiningMark(s[i])
    ensures forall i :: 0 <= i < |Text.Upper(s)| ==> !IsPrecomposed(Text.Upper(s)[i]) && !IsCombiningMark(Text.Upper(s)[i])
  {
    if s != [] {
      UpperCharKeepsPlain(s[0]);
      UpperKeepsPlain(s[1..]);
    }
  }

  /** Every character of a normalised key: already upper-case, not a mark, not a
      letter that decomposes. */
  predicate IsKeyChar(c: char) {
    Text.IsUpperFixed(c) && !IsCombiningMark(c) && !IsPrecomposed(c)
  }

  /** A normalised key: key characters only, with no white space at either end. */
  predicate IsNormalKey(r: string) {
    (forall i :: 0 <= i < |r| ==> IsKeyChar(r[i])) &&
    (r == [] || (!Text.IsPySpace(r[0]) && !Text.IsPySpace(r[|r| - 1])))
  }

  lemma KeyCharsOfPlain(plain: string)
    requires forall i :: 0 <= i < |plain| ==> !IsPrecomposed(plain[i]) && !IsCombiningMark(plain[i])
    ensures forall i :: 0 <= i < |Text.Trim(Text.Upper(plain), Text.IsPySpace)| ==>
      IsKeyChar(Text.Trim(Text.Upper(plain), Text.IsPySpace)[i])
  {
    UpperKeepsPlain(plain);
    var upper := Text.Upper(plain);
    assert forall i :: 0 <= i < |upper| ==> IsKeyChar(upper[i]);
    Text.TrimChars(upper, Text.IsPySpace);
  }

  lemma PlainOfDecomposed(s: string)
    ensures forall i :: 0 <= i < |RemoveMarks(Decompose(s))| ==>
      !IsPrecomposed(RemoveMarks(Decompose(s))[i]) && !IsCombiningMark(RemoveMarks(Decompose(s))[i])
  {
    var d := Decompose(s);
    RemoveMarksKeeps(d);
    assert forall c :: c in d ==> !IsPrecomposed(c);
  }

  /** The text without accents, upper-cased, before stripping. */
  function Folded(s: string): string {
    Text.Upper(RemoveMarks(Decompose(s)))
  }

  /** `normalize_string(s)`: empty input gives ""; otherwise accents are taken off,
      the text is upper-cased and white space is stripped from both ends. */
  function NormalizeString(s: string): (r: string)
    ensures s == [] ==> r == []
    ensures IsNormalKey(r)
  {
    if s == [] then []
    else
      PlainOfDecomposed(s);
      KeyCharsOfPlain(RemoveMarks(Decompose(s)));
      Text.Trim(Folded(s), Text.IsPySpace)
  }

  lemma {:induction false} DecomposeConcat(a: string, b: string)
    ensures Decompose(a + b) == Decompose(a) + Decompose(b)
  {
    if a != [] {
      assert (a + b)[1..] == a[1..] + b;
      DecomposeConcat(a[1..], b);
    } else {
      assert a + b == b;
    }
  }

  lemma {:induction false} RemoveMarksConcat(a: string, b: string)
    ensures RemoveMarks(a + b) == RemoveMarks(a) + RemoveMarks(b)
  {
    if a != [] {
      assert (a + b)[1..] == a[1..] + b;
      RemoveMarksConcat(a[1..], b);
    } else {
      assert a + b == b;
    }
  }

  /** Folding works character by character. */
  lemma FoldedConcat(a: string, b: string)
    ensures Folded(a + b) == Folded(a) + Folded(b)
  {
    DecomposeConcat(a, b);
    RemoveMarksConcat(Decompose(a), Decompose(b));
    Text.UpperConcat(RemoveMarks(Decompose(a)), RemoveMarks(Decompose(b)));
  }

  /** A letter that decomposes folds to the upper case of its base letter. */
  lemma FoldedOfPair(x: char)
    requires IsPrecomposed(x)
    ensures Folded([x]) == Text.UpperChar(DecomposeChar(x)[0])
  {
    var d := DecomposeChar(x);
    assert Decompose([x]) == d by {
      assert [x][1..] == [];
    }
    assert RemoveMarks(d) == [d[0]] by {
      assert d[1..] == [d[1]] && d[1..][1..] == [];
    }
    assert Text.Upper([d[0]]) == Text.UpperChar(d[0]) + Text.Upper([]);
  }

  /** A Latin-1 lower-case letter and its upper-case partner fold alike. */
  lemma FoldedLatinLower(c: char)
    requires '\U{E0}' <= c <= '\U{FE}' && c != '\U{F7}'
    ensures Folded([c]) == Folded([(c as int - 32) as char])
  {
    var n := c as int;
    var v := (n - 32) as char;
    if UpperBaseAndMark(n - 32).Some? {
      var bm := UpperBaseAndMark(n - 32).value;
      assert DecomposeChar(c) == [(bm.0 as int + 0x20) as char, bm.1];
      assert DecomposeChar(v) == [bm.0, bm.1];
      FoldedOfPair(c);
      FoldedOfPair(v);
    } else {
      assert DecomposeChar(c) == [c];
      assert DecomposeChar(v) == [v];
      FoldedSingle(c);
      FoldedSingle(v);
    }
  }

  /** Upper-casing a character first does not change its folded form. */
  lemma FoldedUpperChar(c: char)
    ensures Folded(Text.UpperChar(c)) == Folded([c])
  {
    var u := Text.UpperChar(c);
    if c == '\U{DF}' {
      assert u == "SS";
      assert Decompose([c]) == [c] by {
        assert [c][1..] == [];
      }
      assert Decompose("S") == "S" && Decompose(u) == "SS" by {
        assert "S"[1..] == [] && u[1..] == "S";
      }
      assert Folded(u) == "SS" by {
        assert RemoveMarks("S") == "S";
        assert Text.Upper("S") == "S";
      }
    } else if '\U{E0}' <= c <= '\U{FE}' && c != '\U{F7}' {
      assert u == [(c as int - 32) as char];
      FoldedLatinLower(c);
    } else if c == '\U{FF}' {
      assert u == ['\U{178}'];
      FoldedOfPair(c);
      FoldedOfPair('\U{178}');
    } else if 'a' <= c <= 'z' || c == '\U{B5}' {
      FoldedSingle(c);
      FoldedSingle(u[0]);
      assert u == [u[0]];
    } else {
      assert u == [c];
    }
  }

  /** Folding ignores letter case: a text and its upper-case form fold alike. */
  lemma {:induction false} FoldedUpper(s: string)
    ensures Folded(Text.Upper(s)) == Folded(s)
  {
    if s != [] {
      assert s == [s[0]] + s[1..];
      assert Text.Upper(s) == Text.UpperChar(s[0]) + Text.Upper(s[1..]);
      FoldedConcat(Text.UpperChar(s[0]), Text.Upper(s[1..]));
      FoldedUpperChar(s[0]);
      FoldedUpper(s[1..]);
      FoldedConcat([s[0]], s[1..]);
    }
  }

  /** Texts that differ only in letter case share a key. */
  lemma NormalizeIgnoresCase(s: string)
    ensures NormalizeString(Text.Upper(s)) == NormalizeString(s)
  {
    FoldedUpper(s);
    if s != [] {
      assert |Text.Upper(s)| >= |s|;
    }
  }

  /** A text and the text with its accents taken off share a key. */
  lemma NormalizeIgnoresAccents(s: string)
    ensures NormalizeString(RemoveMarks(Decompose(s))) == NormalizeString(s)
  {
    var p := RemoveMarks(Decompose(s));
    PlainOfDecomposed(s);
    if p != [] {
      DecomposeUnchanged(p);
      assert RemoveMarks(p) == p;
      assert Folded(p) == Folded(s);
    }
  }

  /** One character that neither decomposes nor is a mark folds to its upper case. */
  lemma FoldedSingle(c: char)
    requires DecomposeChar(c) == [c] && !IsCombiningMark(c)
    ensures Folded([c]) == Text.UpperChar(c)
  {
    assert [c][1..] == [];
    assert Decompose([c]) == [c];
    assert RemoveMarks([c]) == [c];
    assert Text.Upper([c]) == Text.UpperChar(c) + Text.Upper([]);
  }

  lemma FoldedPlainChar(c: char)
    requires c == ' ' || 'A' <= c <= 'Z'
    ensures Folded([c]) == [c]
  {
    FoldedSingle(c);
  }

  lemma FoldedLowerChar(c: char)
    requires 'a' <= c <= 'z'
    ensures Folded([c]) == [(c as int - 32) as char]
  {
    FoldedSingle(c);
  }

  /** A precomposed letter folds to its upper-case base letter. */
  lemma FoldedAccented(c: char, base: char, mark: char)
    requires DecomposeChar(c) == [base, mark] && 'a' <= base <= 'z' && IsCombiningMark(mark)
    ensures Folded([c]) == [(base as int - 32) as char]
  {
    assert [c][1..] == [];
    assert Decompose([c]) == [base, mark];
    assert [base, mark][1..] == [mark] && [mark][1..] == [];
    assert RemoveMarks([mark]) == [];
    assert RemoveMarks([base, mark]) == [base];
    assert Text.Upper([base]) == Text.UpperChar(base) + Text.Upper([]);
  }

  lemma FoldedSix(c0: char, c1: char, c2: char, c3: char, c4: char, c5: char)
    ensures Folded([c0, c1, c2, c3, c4, c5])
      == Folded([c0]) + Folded([c1]) + Folded([c2]) + Folded([c3]) + Folded([c4]) + Folded([c5])
  {
    assert [c0, c1, c2, c3, c4, c5] == [c0] + [c1] + [c2] + [c3] + [c4] + [c5];
    FoldedConcat([c0] + [c1] + [c2] + [c3] + [c4], [c5]);
    FoldedConcat([c0] + [c1] + [c2] + [c3], [c4]);
    FoldedConcat([c0] + [c1] + [c2], [c3]);
    FoldedConcat([c0] + [c1], [c2]);
    FoldedConcat([c0], [c1]);
  }

  lemma FoldedAcao(sp: char, a: char, cc: char, at: char, o: char)
    requires sp == ' ' && a == 'a' && cc == '\U{E7}' && at == '\U{E3}' && o == 'o'
    ensures Folded([sp, a, cc, at, o, sp]) == [sp, 'A', 'C', 'A', 'O', sp]
  {
    FoldedSix(sp, a, cc, at, o, sp);
    FoldedPlainChar(sp);
    FoldedLowerChar(a);
    FoldedLowerChar(o);
    assert UpperBaseAndMark(0xC7) == Some(('C', '\U{327}'));
    FoldedAccented(cc, 'c', '\U{327}');
    assert UpperBaseAndMark(0xC3) == Some(('A', '\U{303}'));
    FoldedAccented(at, 'a', '\U{303}');
    SixSingles(sp, 'A', 'C', 'A', 'O', sp);
  }

  lemma SixSingles<T>(x0: T, x1: T, x2: T, x3: T, x4: T, x5: T)
    ensures [x0] + [x1] + [x2] + [x3] + [x4] + [x5] == [x0, x1, x2, x3, x4, x5]
  {
  }

  lemma TrimAcao(t: string)
    requires t == [' ', 'A', 'C', 'A', 'O', ' ']
    ensures Text.Trim(t, Text.IsPySpace) == t[1..5]
  {
    assert Text.TrimStart(t[1..], Text.IsPySpace) == t[1..];
    assert Text.TrimStart(t, Text.IsPySpace) == t[1..];
    assert t[1..][..4] == t[1..5];
    assert Text.TrimEnd(t[1..5], Text.IsPySpace) == t[1..5];
  }

  /** A concrete key: surrounding spaces, case and accents all disappear. */
  lemma NormalizeAcao(s: string)
    requires s == " a\U{E7}\U{E3}o "
    ensures NormalizeString(s) == "ACAO"
  {
    FoldedAcao(' ', 'a', '\U{E7}', '\U{E3}', 'o');
    assert s == [' ', 'a', '\U{E7}', '\U{E3}', 'o', ' '];
    TrimAcao(Folded(s));
  }

  /** A text made of key characters with no surrounding white space is its own key. */
  lemma {:induction false} NormalizeKeyUnchanged(r: string)
    requires IsNormalKey(r)
    ensures NormalizeString(r) == r
  {
    if r != [] {
      DecomposeUnchanged(r);
      var plain := RemoveMarks(Decompose(r));
      assert plain == r;
      Text.UpperOfFixed(r);
      Text.TrimOfTrimmed(r, Text.IsPySpace);
    }
  }

  /** Normalising a key again leaves it unchanged. */
  lemma NormalizeIdempotent(s: string)
    ensures NormalizeString(NormalizeString(s)) == NormalizeString(s)
  {
    NormalizeKeyUnchanged(NormalizeString(s));
  }
}
