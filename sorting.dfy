/**
 * A stable sort, the model of lodash's `orderBy` and of the (stable)
 * `Array.prototype.sort`. Every ordering in the application is expressed as a
 * sort key: a sequence of integers compared lexicographically, shorter first on
 * a common prefix. A descending numeric order negates the number; JavaScript's
 * `<` on strings compares their character codes.
 */
module Sorting {
  import opened Seqs

  type Key = seq<int>

  /** Lexicographic order on keys; a proper prefix comes first. */
  predicate KeyLe(a: Key, b: Key)
    decreases |a|
  {
    |a| == 0 || (|b| > 0 && (a[0] < b[0] || (a[0] == b[0] && KeyLe(a[1..], b[1..]))))
  }

  lemma {:induction false} KeyLeRefl(a: Key)
    ensures KeyLe(a, a)
    decreases |a|
  {
    if |a| > 0 { KeyLeRefl(a[1..]); }
  }

  lemma {:induction false} KeyLeTotal(a: Key, b: Key)
    ensures KeyLe(a, b) || KeyLe(b, a)
    decreases |a|
  {
    if |a| > 0 && |b| > 0 && a[0] == b[0] { KeyLeTotal(a[1..], b[1..]); }
  }

  lemma {:induction false} KeyLeTrans(a: Key, b: Key, c: Key)
    requires KeyLe(a, b) && KeyLe(b, c)
    ensures KeyLe(a, c)
    decreases |a|
  {
    if |a| > 0 && a[0] == b[0] && b[0] == c[0] { KeyLeTrans(a[1..], b[1..], c[1..]); }
  }

  lemma {:induction false} KeyLeAntisymmetric(a: Key, b: Key)
    requires KeyLe(a, b) && KeyLe(b, a)
    ensures a == b
    decreases |a|
  {
    if |a| > 0 {
      KeyLeAntisymmetric(a[1..], b[1..]);
      assert a == [a[0]] + a[1..] && b == [b[0]] + b[1..];
    }
  }

  /** A key with a leading component compares on it first. */
  lemma KeyLeCons(x: int, a: Key, y: int, b: Key)
    ensures KeyLe([x] + a, [y] + b) <==> x < y || (x == y && KeyLe(a, b))
  {
    assert ([x] + a)[1..] == a && ([y] + b)[1..] == b;
  }

  /** One-component keys compare as their numbers. */
  lemma KeyLeSingle(x: int, y: int)
    ensures KeyLe([x], [y]) <==> x <= y
  {
    assert [x][1..] == [] && [y][1..] == [];
  }

  /** `s` is in non-decreasing key order. */
  ghost predicate SortedBy<T>(s: seq<T>, key: T -> Key) {
    forall i, j :: 0 <= i < j < |s| ==> KeyLe(key(s[i]), key(s[j]))
  }

  /** Sorted by `k1`, and among elements with equal `k1` keys, by `k2`. */
  ghost predicate SortedThenBy<T>(s: seq<T>, k1: T -> Key, k2: T -> Key) {
    forall i, j :: 0 <= i < j < |s| ==>
      KeyLe(k1(s[i]), k1(s[j])) && (k1(s[i]) == k1(s[j]) ==> KeyLe(k2(s[i]), k2(s[j])))
  }

  /** `x` is at or below every element of `s` by `key`. */
  ghost predicate AtOrBelowAll<T>(x: T, s: seq<T>, key: T -> Key) {
    forall y :: y in s ==> KeyLe(key(x), key(y))
  }

  /** Insert `x` before the first element it does not come after. */
  function Insert<T>(x: T, s: seq<T>, key: T -> Key): (r: seq<T>)
    ensures multiset(r) == multiset(s) + multiset{x}
    ensures |r| == |s| + 1
    decreases |s|
  {
    if |s| == 0 then [x]
    else if KeyLe(key(x), key(s[0])) then [x] + s
    else
      assert s == [s[0]] + s[1..];
      [s[0]] + Insert(x, s[1..], key)
  }

  /** Stable insertion sort by `key`; elements with equal keys keep their input order. */
  function SortBy<T>(s: seq<T>, key: T -> Key): (r: seq<T>)
    ensures multiset(r) == multiset(s)
    ensures |r| == |s|
    ensures SortedBy(r, key)
    decreases |s|
  {
    if |s| == 0 then []
    else
      var rest := SortBy(s[1..], key);
      InsertSorted(s[0], rest, key);
      var r := Insert(s[0], rest, key);
      assert SortedBy(r, key);
      assert multiset(s) == multiset{s[0]} + multiset(s[1..]) by {
        assert s == [s[0]] + s[1..];
      }
      r
  }

  lemma {:induction false} InsertSorted<T>(x: T, s: seq<T>, key: T -> Key)
    requires SortedBy(s, key)
    ensures SortedBy(Insert(x, s, key), key)
    decreases |s|
  {
    if |s| > 0 {
      if KeyLe(key(x), key(s[0])) {
        forall j | 0 < j < |s| ensures KeyLe(key(x), key(s[j])) {
          KeyLeTrans(key(x), key(s[0]), key(s[j]));
        }
      } else {
        KeyLeTotal(key(x), key(s[0]));
        InsertSorted(x, s[1..], key);
        var r := Insert(x, s[1..], key);
        forall y | y in r ensures KeyLe(key(s[0]), key(y)) {
          assert y in multiset(r);
          if y != x {
            assert y in s[1..];
          }
        }
      }
    }
  }

  /** Inserting an element that is `k2`-below everything keeps a `k1`-then-`k2` order. */
  lemma {:induction false} InsertThenBy<T>(x: T, s: seq<T>, k1: T -> Key, k2: T -> Key)
    requires SortedThenBy(s, k1, k2)
    requires AtOrBelowAll(x, s, k2)
    ensures SortedThenBy(Insert(x, s, k1), k1, k2)
    decreases |s|
  {
    if |s| > 0 {
      if KeyLe(k1(x), k1(s[0])) {
        forall j | 0 < j < |s| ensures KeyLe(k1(x), k1(s[j])) {
          KeyLeTrans(k1(x), k1(s[0]), k1(s[j]));
        }
      } else {
        KeyLeTotal(k1(x), k1(s[0]));
        if k1(s[0]) == k1(x) { KeyLeRefl(k1(x)); }
        assert AtOrBelowAll(x, s[1..], k2);
        InsertThenBy(x, s[1..], k1, k2);
        var r := Insert(x, s[1..], k1);
        forall y | y in r
          ensures KeyLe(k1(s[0]), k1(y)) && (k1(s[0]) == k1(y) ==> KeyLe(k2(s[0]), k2(y)))
        {
          assert y in multiset(r);
          if y != x {
            assert y in s[1..];
            var j :| 0 <= j < |s[1..]| && s[1..][j] == y;
            assert s[j + 1] == y;
          }
        }
      }
    }
  }

  /**
   * Stability: sorting by `k1` a sequence already sorted by `k2` orders it by
   * `k1` first and by `k2` among equal `k1` keys.
   */
  lemma {:induction false} SortByThenBy<T>(s: seq<T>, k1: T -> Key, k2: T -> Key)
    requires SortedBy(s, k2)
    ensures SortedThenBy(SortBy(s, k1), k1, k2)
    decreases |s|
  {
    if |s| > 0 {
      assert SortedBy(s[1..], k2);
      SortByThenBy(s[1..], k1, k2);
      var rest := SortBy(s[1..], k1);
      forall y | y in rest ensures KeyLe(k2(s[0]), k2(y)) {
        assert y in multiset(rest);
        assert y in s[1..];
        var j :| 0 <= j < |s[1..]| && s[1..][j] == y;
        assert s[j + 1] == y;
      }
      InsertThenBy(s[0], rest, k1, k2);
    }
  }

  /** Filtering keeps a sorted sequence sorted. */
  lemma {:induction false} FilterSorted<T(!new)>(s: seq<T>, p: T -> bool, key: T -> Key)
    ensures SortedBy(s, key) ==> SortedBy(Filter(s, p), key)
    decreases |s|
  {
    if |s| > 0 && SortedBy(s, key) {
      assert SortedBy(s[1..], key);
      FilterSorted(s[1..], p, key);
      if p(s[0]) {
        var rest := Filter(s[1..], p);
        forall j | 0 <= j < |rest| ensures KeyLe(key(s[0]), key(rest[j])) {
          assert rest[j] in s[1..];
        }
      }
    }
  }

  /** A sequence already in key order is its own stable sort. */
  lemma {:induction false} SortBySorted<T>(s: seq<T>, key: T -> Key)
    requires SortedBy(s, key)
    ensures SortBy(s, key) == s
    decreases |s|
  {
    if |s| > 0 {
      assert SortedBy(s[1..], key);
      SortBySorted(s[1..], key);
      if |s| > 1 {
        assert KeyLe(key(s[0]), key(s[1]));
        assert s == [s[0]] + s[1..];
      }
    }
  }
}
