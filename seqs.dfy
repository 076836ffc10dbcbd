/**
 * Sums, key filters and first-seen key lists over sequences: the shapes that
 * the panel's `reduce`, `filter` and accumulator-dictionary loops compute.
 * Every function recurses on the last element, the way a left-to-right
 * `forEach` builds its result.
 */
module Seqs {

  /** Sum of f over s, accumulated left to right. */
  function Sum<T>(s: seq<T>, f: T -> int): int
  {
    if s == [] then 0 else Sum(s[..|s| - 1], f) + f(s[|s| - 1])
  }

  lemma {:induction false} SumAppend<T>(a: seq<T>, b: seq<T>, f: T -> int)
    ensures Sum(a + b, f) == Sum(a, f) + Sum(b, f)
  {
    if b == [] {
      assert a + b == a;
    } else {
      assert (a + b)[..|a + b| - 1] == a + b[..|b| - 1];
      SumAppend(a, b[..|b| - 1], f);
    }
  }

  predicate Distinct<K(==)>(s: seq<K>)
  {
    forall i, j :: 0 <= i < j < |s| ==> s[i] != s[j]
  }

  /** The elements of s whose key is k, in their original order. */
  function FilterKey<T, K(==)>(s: seq<T>, key: T -> K, k: K): (r: seq<T>)
    ensures |r| <= |s|
  {
    if s == [] then []
    else
      assert s == s[..|s| - 1] + [s[|s| - 1]];
      FilterKey(s[..|s| - 1], key, k) + (if key(s[|s| - 1]) == k then [s[|s| - 1]] else [])
  }

  /** FilterKey keeps exactly the elements whose key is k. */
  lemma {:induction false} FilterKeyMembers<T, K>(s: seq<T>, key: T -> K, k: K)
    ensures forall x :: x in FilterKey(s, key, k) <==> x in s && key(x) == k
  {
    if s != [] {
      var s', y := s[..|s| - 1], s[|s| - 1];
      assert s == s' + [y];
      FilterKeyMembers(s', key, k);
    }
  }

  /** Filtering distributes over concatenation, so it keeps the relative order of what it keeps. */
  lemma {:induction false} FilterKeyAppend<T, K>(a: seq<T>, b: seq<T>, key: T -> K, k: K)
    ensures FilterKey(a + b, key, k) == FilterKey(a, key, k) + FilterKey(b, key, k)
  {
    if b == [] {
      assert a + b == a;
    } else {
      assert (a + b)[..|a + b| - 1] == a + b[..|b| - 1];
      FilterKeyAppend(a, b[..|b| - 1], key, k);
    }
  }

  /**
   * The distinct keys of s in the order they are first seen: the key order of
   * a JavaScript object filled by `if (!acc[k]) acc[k] = ...` in a loop.
   */
  function Keys<T, K(==)>(s: seq<T>, key: T -> K): (r: seq<K>)
    ensures Distinct(r)
  {
    if s == [] then []
    else
      var r0 := Keys(s[..|s| - 1], key);
      var k := key(s[|s| - 1]);
      if k in r0 then r0 else r0 + [k]
  }

  /** The set of keys occurring in s. */
  function KeySet<T, K(==)>(s: seq<T>, key: T -> K): set<K>
  {
    set i | 0 <= i < |s| :: key(s[i])
  }

  /** The first-seen keys are exactly the keys occurring in s. */
  lemma {:induction false} KeysMembers<T, K>(s: seq<T>, key: T -> K)
    ensures forall k :: k in Keys(s, key) <==> k in KeySet(s, key)
  {
    if s != [] {
      var s', x := s[..|s| - 1], s[|s| - 1];
      KeysMembers(s', key);
      assert KeySet(s, key) == KeySet(s', key) + {key(x)} by {
        forall k | k in KeySet(s, key) ensures k in KeySet(s', key) + {key(x)} {
          var i :| 0 <= i < |s| && key(s[i]) == k;
          if i < |s| - 1 { assert s'[i] == s[i]; }
        }
        forall k | k in KeySet(s', key) ensures k in KeySet(s, key) {
          var i :| 0 <= i < |s'| && key(s'[i]) == k;
          assert s[i] == s'[i];
        }
      }
    }
  }

  /** One more element adds its value to the sum of its own key's group and to no other group. */
  lemma SumFilterKeySnoc<T, K>(s: seq<T>, x: T, key: T -> K, k: K, f: T -> int)
    ensures Sum(FilterKey(s + [x], key, k), f) == Sum(FilterKey(s, key, k), f) + (if key(x) == k then f(x) else 0)
  {
    var g := FilterKey(s, key, k);
    FilterKeySnoc(s, x, key, k);
    if key(x) == k {
      SumSnoc(g, x, f);
    } else {
      assert g + [] == g;
    }
  }

  /** Two key tests that select the same elements give the same filter. */
  lemma {:induction false} FilterKeySameSelection<T, K, L>(s: seq<T>, key: T -> K, k: K, key2: T -> L, k2: L)
    requires forall x :: key(x) == k <==> key2(x) == k2
    ensures FilterKey(s, key, k) == FilterKey(s, key2, k2)
  {
    if s != [] {
      FilterKeySameSelection(s[..|s| - 1], key, k, key2, k2);
    }
  }

  /** A key absent from s selects nothing. */
  lemma FilterKeyOfAbsent<T, K>(s: seq<T>, key: T -> K, k: K)
    requires k !in Keys(s, key)
    ensures FilterKey(s, key, k) == []
  {
    KeysMembers(s, key);
    FilterKeyMembers(s, key, k);
  }

  /** A key present in s selects something. */
  lemma FilterKeyOfPresent<T, K>(s: seq<T>, key: T -> K, k: K)
    requires k in Keys(s, key)
    ensures FilterKey(s, key, k) != []
  {
    KeysMembers(s, key);
    FilterKeyMembers(s, key, k);
    var i :| 0 <= i < |s| && key(s[i]) == k;
    assert s[i] in FilterKey(s, key, k);
  }

  /** Sum over the keys ks of the sum of f over the elements of s carrying that key. */
  function GroupedSum<T, K(==)>(ks: seq<K>, s: seq<T>, key: T -> K, f: T -> int): int
  {
    if ks == [] then 0
    else GroupedSum(ks[..|ks| - 1], s, key, f) + Sum(FilterKey(s, key, ks[|ks| - 1]), f)
  }

  lemma {:induction false} GroupedSumSnoc<T, K>(ks: seq<K>, s: seq<T>, x: T, key: T -> K, f: T -> int)
    requires Distinct(ks)
    ensures GroupedSum(ks, s + [x], key, f) == GroupedSum(ks, s, key, f) + (if key(x) in ks then f(x) else 0)
  {
    if ks != [] {
      var ks', k := ks[..|ks| - 1], ks[|ks| - 1];
      assert ks == ks' + [k];
      GroupedSumSnoc(ks', s, x, key, f);
      assert (s + [x])[..|s|] == s;
      var fs := FilterKey(s, key, k);
      var ex := if key(x) == k then [x] else [];
      assert FilterKey(s + [x], key, k) == fs + ex;
      SumAppend(fs, ex, f);
      assert key(x) in ks <==> key(x) in ks' || key(x) == k;
      assert key(x) == k ==> key(x) !in ks';
    }
  }

  lemma KeysSnoc<T, K>(s: seq<T>, x: T, key: T -> K)
    ensures Keys(s + [x], key) == if key(x) in Keys(s, key) then Keys(s, key) else Keys(s, key) + [key(x)]
  {
    assert (s + [x])[..|s|] == s;
  }

  /** The step of GroupedSumOfKeys for an element whose key was not seen before. */
  lemma NewKeyStep<T, K>(s: seq<T>, x: T, key: T -> K, f: T -> int)
    requires key(x) !in Keys(s, key)
    ensures GroupedSum(Keys(s, key) + [key(x)], s + [x], key, f)
         == GroupedSum(Keys(s, key), s, key, f) + f(x)
  {
    var ks := Keys(s, key);
    var ks1 := ks + [key(x)];
    assert ks1[..|ks1| - 1] == ks;
    GroupedSumSnoc(ks, s, x, key, f);
    FilterKeyOfAbsent(s, key, key(x));
    FilterKeySnoc(s, x, key, key(x));
    SumSnoc([], x, f);
    assert [] + [x] == [x];
  }

  /**
   * Grouping loses and invents nothing: summing each group's total over all
   * keys gives the total over the whole sequence.
   */
  lemma {:induction false} GroupedSumOfKeys<T, K>(s: seq<T>, key: T -> K, f: T -> int)
    ensures GroupedSum(Keys(s, key), s, key, f) == Sum(s, f)
  {
    if s != [] {
      var s', x := s[..|s| - 1], s[|s| - 1];
      assert s == s' + [x];
      GroupedSumOfKeys(s', key, f);
      KeysSnoc(s', x, key);
      if key(x) in Keys(s', key) {
        GroupedSumSnoc(Keys(s', key), s', x, key, f);
      } else {
        NewKeyStep(s', x, key, f);
      }
    }
  }

  /** A sequence of distinct values has as many elements as the set of its values. */
  lemma {:induction false} DistinctCardinality<K>(s: seq<K>, c: set<K>)
    requires Distinct(s)
    requires forall k :: k in c <==> k in s
    ensures |c| == |s|
  {
    if s != [] {
      var s', k := s[..|s| - 1], s[|s| - 1];
      assert s == s' + [k];
      assert k !in s';
      DistinctCardinality(s', c - {k});
    }
  }

  /** The number of first-seen keys is the number of distinct keys. */
  lemma KeysCount<T, K>(s: seq<T>, key: T -> K)
    ensures |Keys(s, key)| == |KeySet(s, key)|
  {
    KeysMembers(s, key);
    DistinctCardinality(Keys(s, key), KeySet(s, key));
  }

  lemma {:induction false} DistinctCounts<K>(s: seq<K>, x: K)
    requires Distinct(s)
    ensures multiset(s)[x] <= 1
  {
    if s != [] {
      var s', y := s[..|s| - 1], s[|s| - 1];
      assert s == s' + [y];
      DistinctCounts(s', x);
      assert y !in s';
    }
  }

  /** A rearrangement of a duplicate-free sequence is duplicate-free. */
  lemma DistinctPermutation<K>(a: seq<K>, b: seq<K>)
    requires multiset(a) == multiset(b) && Distinct(a)
    ensures Distinct(b)
  {
    forall i, j | 0 <= i < j < |b| ensures b[i] != b[j] {
      if b[i] == b[j] {
        var x := b[i];
        assert b == b[..j] + [b[j]] + b[j + 1..];
        assert x in b[..j];
        assert multiset(b)[x] >= 2;
        DistinctCounts(a, x);
      }
    }
  }

  lemma SumSnoc<T>(s: seq<T>, x: T, f: T -> int)
    ensures Sum(s + [x], f) == Sum(s, f) + f(x)
  {
    assert (s + [x])[..|s|] == s;
  }

  lemma FilterKeySnoc<T, K>(s: seq<T>, x: T, key: T -> K, k: K)
    ensures FilterKey(s + [x], key, k) == FilterKey(s, key, k) + (if key(x) == k then [x] else [])
  {
    assert (s + [x])[..|s|] == s;
  }

  /** Every element of a rearrangement of a occurs at some position of a. */
  lemma PermutationMember<T>(a: seq<T>, b: seq<T>, i: int)
    requires multiset(a) == multiset(b) && 0 <= i < |b|
    ensures exists j :: 0 <= j < |a| && a[j] == b[i]
  {
    assert b[i] in multiset(b);
    assert b[i] in a;
  }

  /** Filtering a duplicate-free sequence leaves it duplicate-free. */
  lemma {:induction false} FilterKeyDistinct<T, K>(s: seq<T>, key: T -> K, k: K)
    requires Distinct(s)
    ensures Distinct(FilterKey(s, key, k))
  {
    if s != [] {
      var s', x := s[..|s| - 1], s[|s| - 1];
      assert s == s' + [x];
      FilterKeyDistinct(s', key, k);
      FilterKeyMembers(s', key, k);
      assert x !in s';
    }
  }

  /** The first element FilterKey keeps is the first element of s carrying key k. */
  lemma {:induction false} FilterKeyFirst<T, K>(s: seq<T>, key: T -> K, k: K)
    requires FilterKey(s, key, k) != []
    ensures exists i :: 0 <= i < |s| && s[i] == FilterKey(s, key, k)[0] && key(s[i]) == k &&
                        forall j :: 0 <= j < i ==> key(s[j]) != k
  {
    var s', x := s[..|s| - 1], s[|s| - 1];
    assert s == s' + [x];
    if FilterKey(s', key, k) == [] {
      FilterKeyMembers(s', key, k);
      forall j | 0 <= j < |s| - 1 ensures key(s[j]) != k {
        assert s'[j] in s';
      }
    } else {
      FilterKeyFirst(s', key, k);
      var i :| 0 <= i < |s'| && s'[i] == FilterKey(s', key, k)[0] && key(s'[i]) == k &&
               forall j :: 0 <= j < i ==> key(s'[j]) != k;
      assert s[i] == s'[i];
    }
  }
}
