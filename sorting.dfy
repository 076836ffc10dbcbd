/**
 * The two orders the panel sorts by with `Array.prototype.sort`, which is
 * stable: a numeric comparator (`(a, b) => a.k - b.k`, or `b.k - a.k` for
 * descending, which is ascending on the negated key), and the default order
 * on strings.
 */
module Sorting {
  import opened Seqs

  predicate SortedBy<T>(s: seq<T>, key: T -> int)
  {
    forall i, j :: 0 <= i < j < |s| ==> key(s[i]) <= key(s[j])
  }

  /** Inserts x after every trailing element of t whose key is greater than key(x). */
  function InsertBy<T>(t: seq<T>, x: T, key: T -> int): (r: seq<T>)
    ensures |r| == |t| + 1
    ensures multiset(r) == multiset(t) + multiset{x}
  {
    if t == [] || key(t[|t| - 1]) <= key(x) then t + [x]
    else
      assert t == t[..|t| - 1] + [t[|t| - 1]];
      InsertBy(t[..|t| - 1], x, key) + [t[|t| - 1]]
  }

  lemma {:induction false} InsertBySorted<T>(t: seq<T>, x: T, key: T -> int)
    requires SortedBy(t, key)
    ensures SortedBy(InsertBy(t, x, key), key)
  {
    if t == [] || key(t[|t| - 1]) <= key(x) {
      assert forall i :: 0 <= i < |t| ==> key(t[i]) <= key(x);
    } else {
      var t', y := t[..|t| - 1], t[|t| - 1];
      assert t == t' + [y];
      InsertBySorted(t', x, key);
      var r' := InsertBy(t', x, key);
      forall i | 0 <= i < |r'| ensures key(r'[i]) <= key(y) {
        assert r'[i] in multiset(t') + multiset{x} by {
          assert r'[i] in multiset(r');
        }
        if r'[i] != x {
          assert r'[i] in t';
          var j :| 0 <= j < |t'| && t'[j] == r'[i];
          assert t[j] == t'[j];
        }
      }
    }
  }

  /** A stable sort ascending by an integer key. */
  function SortBy<T>(s: seq<T>, key: T -> int): (r: seq<T>)
    ensures |r| == |s|
    ensures multiset(r) == multiset(s)
    ensures SortedBy(r, key)
  {
    if s == [] then []
    else
      assert s == s[..|s| - 1] + [s[|s| - 1]];
      InsertBySorted(SortBy(s[..|s| - 1], key), s[|s| - 1], key);
      InsertBy(SortBy(s[..|s| - 1], key), s[|s| - 1], key)
  }

  lemma {:induction false} InsertByFilterKey<T>(t: seq<T>, x: T, key: T -> int, k: int)
    ensures FilterKey(InsertBy(t, x, key), key, k) == FilterKey(t, key, k) + (if key(x) == k then [x] else [])
  {
    if t == [] || key(t[|t| - 1]) <= key(x) {
      FilterKeySnoc(t, x, key, k);
    } else {
      var t', y := t[..|t| - 1], t[|t| - 1];
      assert t == t' + [y];
      var r' := InsertBy(t', x, key);
      InsertByFilterKey(t', x, key, k);
      FilterKeySnoc(r', y, key, k);
      FilterKeySnoc(t', y, key, k);
      var fy := if key(y) == k then [y] else [];
      var fx := if key(x) == k then [x] else [];
      assert fx == [] || fy == [];
      assert FilterKey(t', key, k) + fx + fy == FilterKey(t', key, k) + fy + fx;
    }
  }

  /**
   * Stability: for every key value, the elements carrying it leave the sort
   * in the order they entered it.
   */
  lemma {:induction false} SortByStable<T>(s: seq<T>, key: T -> int, k: int)
    ensures FilterKey(SortBy(s, key), key, k) == FilterKey(s, key, k)
  {
    if s != [] {
      var s', x := s[..|s| - 1], s[|s| - 1];
      assert s == s' + [x];
      SortByStable(s', key, k);
      InsertByFilterKey(SortBy(s', key), x, key, k);
    }
  }

  lemma {:induction false} InsertBySum<T>(t: seq<T>, x: T, key: T -> int, f: T -> int)
    ensures Sum(InsertBy(t, x, key), f) == Sum(t, f) + f(x)
  {
    if t == [] || key(t[|t| - 1]) <= key(x) {
      assert (t + [x])[..|t|] == t;
    } else {
      var t', y := t[..|t| - 1], t[|t| - 1];
      assert t == t' + [y];
      var r' := InsertBy(t', x, key);
      InsertBySum(t', x, key, f);
      assert (r' + [y])[..|r'|] == r';
    }
  }

  /** Sorting moves amounts around and never changes their total. */
  lemma {:induction false} SortBySum<T>(s: seq<T>, key: T -> int, f: T -> int)
    ensures Sum(SortBy(s, key), f) == Sum(s, f)
  {
    if s != [] {
      var s', x := s[..|s| - 1], s[|s| - 1];
      assert s == s' + [x];
      SortBySum(s', key, f);
      InsertBySum(SortBy(s', key), x, key, f);
    }
  }

  /**
   * The default `sort()` order on strings: lexicographic by character, a
   * proper prefix first.
   */
  predicate LexLe(a: string, b: string)
  {
    a == [] || (b != [] && (a[0] < b[0] || (a[0] == b[0] && LexLe(a[1..], b[1..]))))
  }

  lemma {:induction false} LexLeTotal(a: string, b: string)
    ensures LexLe(a, b) || LexLe(b, a)
  {
    if a != [] && b != [] && a[0] == b[0] {
      LexLeTotal(a[1..], b[1..]);
    }
  }

  lemma {:induction false} LexLeTransitive(a: string, b: string, c: string)
    requires LexLe(a, b) && LexLe(b, c)
    ensures LexLe(a, c)
  {
    if a != [] && b != [] && c != [] && a[0] == b[0] == c[0] {
      LexLeTransitive(a[1..], b[1..], c[1..]);
    }
  }

  lemma {:induction false} LexLeAntisymmetric(a: string, b: string)
    requires LexLe(a, b) && LexLe(b, a)
    ensures a == b
  {
    if a != [] && b != [] {
      LexLeAntisymmetric(a[1..], b[1..]);
      assert a == [a[0]] + a[1..] && b == [b[0]] + b[1..];
    }
  }

  predicate LexSorted(s: seq<string>)
  {
    forall i, j :: 0 <= i < j < |s| ==> LexLe(s[i], s[j])
  }

  /** Inserts x after every trailing element of t that sorts strictly after it. */
  function InsertString(t: seq<string>, x: string): (r: seq<string>)
    ensures multiset(r) == multiset(t) + multiset{x}
  {
    if t == [] || LexLe(t[|t| - 1], x) then t + [x]
    else
      assert t == t[..|t| - 1] + [t[|t| - 1]];
      InsertString(t[..|t| - 1], x) + [t[|t| - 1]]
  }

  lemma {:induction false} InsertStringSorted(t: seq<string>, x: string)
    requires LexSorted(t)
    ensures LexSorted(InsertString(t, x))
  {
    if t == [] || LexLe(t[|t| - 1], x) {
      forall i | 0 <= i < |t| - 1 ensures LexLe(t[i], x) {
        LexLeTransitive(t[i], t[|t| - 1], x);
      }
    } else {
      var t', y := t[..|t| - 1], t[|t| - 1];
      assert t == t' + [y];
      LexLeTotal(x, y);
      InsertStringSorted(t', x);
      var r' := InsertString(t', x);
      forall i | 0 <= i < |r'| ensures LexLe(r'[i], y) {
        assert r'[i] in multiset(t') + multiset{x} by {
          assert r'[i] in multiset(r');
        }
        if r'[i] != x {
          assert r'[i] in t';
          var j :| 0 <= j < |t'| && t'[j] == r'[i];
          assert t[j] == t'[j];
        }
      }
    }
  }

  /** `Array.from(set).sort()` on strings. */
  function SortStrings(s: seq<string>): (r: seq<string>)
    ensures multiset(r) == multiset(s)
    ensures LexSorted(r)
  {
    if s == [] then []
    else
      assert s == s[..|s| - 1] + [s[|s| - 1]];
      InsertStringSorted(SortStrings(s[..|s| - 1]), s[|s| - 1]);
      InsertString(SortStrings(s[..|s| - 1]), s[|s| - 1])
  }
}
