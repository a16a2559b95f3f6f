/** The two sorts the backend relies on: Python's `sorted` on strings (code-point
    lexicographic order) and the stable `list.sort(key=..., reverse=True)`. */
module Sorting {

  /** Python's `a <= b` on strings. */
  predicate LexLe(a: string, b: string)
    decreases |a|
  {
    a == [] || (b != [] && (a[0] < b[0] || (a[0] == b[0] && LexLe(a[1..], b[1..]))))
  }

  lemma {:induction false} LexLeTotal(a: string, b: string)
    ensures LexLe(a, b) || LexLe(b, a)
    decreases |a|
  {
    if a != [] && b != [] && a[0] == b[0] {
      LexLeTotal(a[1..], b[1..]);
    }
  }

  lemma {:induction false} LexLeTrans(a: string, b: string, c: string)
    requires LexLe(a, b) && LexLe(b, c)
    ensures LexLe(a, c)
    decreases |a|
  {
    if a != [] && b != [] && c != [] && a[0] == b[0] && b[0] == c[0] {
      LexLeTrans(a[1..], b[1..], c[1..]);
    }
  }

  predicate SortedStrings(s: seq<string>) {
    forall i, j :: 0 <= i < j < |s| ==> LexLe(s[i], s[j])
  }

  function InsertString(x: string, s: seq<string>): (r: seq<string>)
    requires SortedStrings(s)
    ensures SortedStrings(r)
    ensures multiset(r) == multiset(s) + multiset{x}
  {
    if s == [] then [x]
    else if LexLe(x, s[0]) then
      forall j | 1 <= j < |s| ensures LexLe(x, s[j]) {
        LexLeTrans(x, s[0], s[j]);
      }
      [x] + s
    else
      var rest := InsertString(x, s[1..]);
      assert s == [s[0]] + s[1..];
      LexLeTotal(x, s[0]);
      forall j | 0 <= j < |rest| ensures LexLe(s[0], rest[j]) {
        assert rest[j] in multiset(rest);
      }
      [s[0]] + rest
  }

  /** `sorted(xs)` for strings: ordered and a permutation of the input. */
  function SortStrings(s: seq<string>): (r: seq<string>)
    ensures SortedStrings(r)
    ensures multiset(r) == multiset(s)
  {
    if s == [] then []
    else
      assert s == [s[0]] + s[1..];
      InsertString(s[0], SortStrings(s[1..]))
  }

  predicate DescendingBy<T>(s: seq<T>, key: T -> int) {
    forall i, j :: 0 <= i < j < |s| ==> key(s[i]) >= key(s[j])
  }

  /** The elements of `s` whose key is `k`, in order. */
  function WithKey<T>(s: seq<T>, key: T -> int, k: int): seq<T> {
    if s == [] then []
    else (if key(s[0]) == k then [s[0]] else []) + WithKey(s[1..], key, k)
  }

  /** Inserts `x` in front of every element whose key is not greater. */
  function InsertByKeyDesc<T>(x: T, s: seq<T>, key: T -> int): (r: seq<T>)
    requires DescendingBy(s, key)
    ensures DescendingBy(r, key)
    ensures multiset(r) == multiset(s) + multiset{x}
  {
    if s == [] || key(s[0]) <= key(x) then
      ConsDescending(x, s, key);
      [x] + s
    else
      var rest := InsertByKeyDesc(x, s[1..], key);
      assert s == [s[0]] + s[1..];
      KeysBounded(rest, s[1..], x, key, key(s[0]));
      ConsDescending(s[0], rest, key);
      [s[0]] + rest
  }

  lemma ConsDescending<T>(h: T, s: seq<T>, key: T -> int)
    requires DescendingBy(s, key)
    requires forall j :: 0 <= j < |s| ==> key(s[j]) <= key(h)
    ensures DescendingBy([h] + s, key)
  {
    var r := [h] + s;
    forall i, j | 0 <= i < j < |r| ensures key(r[i]) >= key(r[j]) {
      assert r[j] == s[j - 1];
      if i > 0 {
        assert r[i] == s[i - 1];
      }
    }
  }

  /** Every element of a permutation of `t` plus `x` is bounded like `t` and `x`. */
  lemma KeysBounded<T>(r: seq<T>, t: seq<T>, x: T, key: T -> int, bound: int)
    requires multiset(r) == multiset(t) + multiset{x}
    requires key(x) <= bound
    requires forall j :: 0 <= j < |t| ==> key(t[j]) <= bound
    ensures forall j :: 0 <= j < |r| ==> key(r[j]) <= bound
  {
    forall j | 0 <= j < |r| ensures key(r[j]) <= bound {
      assert r[j] in multiset(r);
      if r[j] != x {
        assert r[j] in multiset(t);
        assert r[j] in t;
      }
    }
  }

  lemma WithKeyCons<T>(h: T, s: seq<T>, key: T -> int, k: int)
    ensures WithKey([h] + s, key, k) == (if key(h) == k then [h] else []) + WithKey(s, key, k)
  {
    assert ([h] + s)[1..] == s;
  }

  /** Insertion keeps `x` ahead of the elements with its key that were already there. */
  lemma {:induction false} InsertByKeyDescStable<T>(x: T, s: seq<T>, key: T -> int, k: int)
    requires DescendingBy(s, key)
    ensures WithKey(InsertByKeyDesc(x, s, key), key, k) == (if key(x) == k then [x] else []) + WithKey(s, key, k)
  {
    if s == [] || key(s[0]) <= key(x) {
      WithKeyCons(x, s, key, k);
    } else {
      assert s == [s[0]] + s[1..];
      var rest := InsertByKeyDesc(x, s[1..], key);
      assert InsertByKeyDesc(x, s, key) == [s[0]] + rest;
      WithKeyCons(s[0], rest, key, k);
      InsertByKeyDescStable(x, s[1..], key, k);
      WithKeyCons(s[0], s[1..], key, k);
    }
  }

  /** `xs.sort(key=key, reverse=True)`: a permutation ordered by descending key in
      which elements with equal keys keep their input order. */
  function SortByKeyDesc<T>(s: seq<T>, key: T -> int): (r: seq<T>)
    ensures DescendingBy(r, key)
    ensures multiset(r) == multiset(s)
    ensures forall k :: WithKey(r, key, k) == WithKey(s, key, k)
  {
    if s == [] then []
    else
      assert s == [s[0]] + s[1..];
      var rest := SortByKeyDesc(s[1..], key);
      forall k ensures WithKey(InsertByKeyDesc(s[0], rest, key), key, k) == WithKey(s, key, k) {
        InsertByKeyDescStable(s[0], rest, key, k);
      }
      InsertByKeyDesc(s[0], rest, key)
  }
}
