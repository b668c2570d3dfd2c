/**
 * Python's `sorted(xs, key=k)`: a stable ascending sort by a numeric key.
 * `sorted(xs, key=k, reverse=True)` is also stable, so it is the same sort on
 * the negated key.
 */
module Sorting {

  /** Keys never decrease along the sequence. */
  ghost predicate SortedBy<T>(s: seq<T>, key: T -> real)
  {
    forall i, j :: 0 <= i < j < |s| ==> key(s[i]) <= key(s[j])
  }

  /** The elements of `s` whose key is `k`, in their order in `s`. */
  function WithKey<T>(s: seq<T>, key: T -> real, k: real): seq<T>
  {
    if s == [] then [] else (if key(s[0]) == k then [s[0]] else []) + WithKey(s[1..], key, k)
  }

  /** Puts `x` in front of the first element whose key is not smaller than its own. */
  function Insert<T>(x: T, s: seq<T>, key: T -> real): seq<T>
  {
    if s == [] || key(x) <= key(s[0]) then [x] + s else [s[0]] + Insert(x, s[1..], key)
  }

  /** Insertion sort; equal keys keep their input order. */
  function SortBy<T>(s: seq<T>, key: T -> real): seq<T>
  {
    if s == [] then [] else Insert(s[0], SortBy(s[1..], key), key)
  }

  /** Sorting a descending key: `sorted(xs, key=k, reverse=True)`. */
  function SortByDescending<T>(s: seq<T>, key: T -> real): seq<T>
  {
    SortBy(s, x => -key(x))
  }

  lemma {:induction false} InsertPermutes<T>(x: T, s: seq<T>, key: T -> real)
    ensures multiset(Insert(x, s, key)) == multiset(s) + multiset{x}
  {
    if s != [] && key(x) > key(s[0]) {
      InsertPermutes(x, s[1..], key);
      assert s == [s[0]] + s[1..];
    }
  }

  lemma {:induction false} InsertSorted<T>(x: T, s: seq<T>, key: T -> real)
    requires SortedBy(s, key)
    ensures SortedBy(Insert(x, s, key), key)
  {
    if s != [] && key(x) > key(s[0]) {
      var t := Insert(x, s[1..], key);
      InsertSorted(x, s[1..], key);
      InsertPermutes(x, s[1..], key);
      forall j | 0 <= j < |t| ensures key(s[0]) <= key(t[j]) {
        assert t[j] in multiset(t);
        assert t[j] == x || t[j] in multiset(s[1..]);
        if t[j] != x {
          var m :| 1 <= m < |s| && s[m] == t[j];
        }
      }
    }
  }

  lemma WithKeyCons<T>(y: T, t: seq<T>, key: T -> real, k: real)
    ensures WithKey([y] + t, key, k) == (if key(y) == k then [y] else []) + WithKey(t, key, k)
  {
    assert ([y] + t)[1..] == t;
  }

  lemma {:induction false} InsertWithKey<T>(x: T, s: seq<T>, key: T -> real, k: real)
    ensures WithKey(Insert(x, s, key), key, k) == (if key(x) == k then [x] else []) + WithKey(s, key, k)
  {
    if s == [] || key(x) <= key(s[0]) {
      WithKeyCons(x, s, key, k);
    } else {
      var rest := Insert(x, s[1..], key);
      InsertWithKey(x, s[1..], key, k);
      WithKeyCons(s[0], rest, key, k);
      WithKeyCons(s[0], s[1..], key, k);
      assert s == [s[0]] + s[1..];
      // key(x) > key(s[0]), so at most one of the two is selected
      if key(x) == k {
        assert WithKey(s, key, k) == WithKey(s[1..], key, k);
      } else {
        assert WithKey(Insert(x, s, key), key, k) == WithKey([s[0]] + rest, key, k);
      }
    }
  }

  /** The result is ordered by key. */
  lemma {:induction false} SortBySorted<T>(s: seq<T>, key: T -> real)
    ensures SortedBy(SortBy(s, key), key)
  {
    if s != [] {
      SortBySorted(s[1..], key);
      InsertSorted(s[0], SortBy(s[1..], key), key);
    }
  }

  /** The result is a rearrangement of the input. */
  lemma {:induction false} SortByPermutes<T>(s: seq<T>, key: T -> real)
    ensures multiset(SortBy(s, key)) == multiset(s)
  {
    if s != [] {
      SortByPermutes(s[1..], key);
      InsertPermutes(s[0], SortBy(s[1..], key), key);
      assert s == [s[0]] + s[1..];
    }
  }

  /** Stability: the elements sharing a key appear in their input order. */
  lemma {:induction false} SortByStable<T>(s: seq<T>, key: T -> real, k: real)
    ensures WithKey(SortBy(s, key), key, k) == WithKey(s, key, k)
  {
    if s != [] {
      SortByStable(s[1..], key, k);
      InsertWithKey(s[0], SortBy(s[1..], key), key, k);
    }
  }

  /** Selecting by the negated key at -k selects the same elements as by the key at k. */
  lemma {:induction false} WithKeyNegated<T>(s: seq<T>, key: T -> real, k: real)
    ensures WithKey(s, x => -key(x), -k) == WithKey(s, key, k)
  {
    if s != [] {
      WithKeyNegated(s[1..], key, k);
    }
  }

  /** The descending sort orders keys from largest to smallest and keeps ties in input order. */
  lemma SortByDescendingCorrect<T>(s: seq<T>, key: T -> real, k: real)
    ensures forall i, j :: 0 <= i < j < |SortByDescending(s, key)| ==>
      key(SortByDescending(s, key)[i]) >= key(SortByDescending(s, key)[j])
    ensures multiset(SortByDescending(s, key)) == multiset(s)
    ensures WithKey(SortByDescending(s, key), key, k) == WithKey(s, key, k)
  {
    var neg := x => -key(x);
    SortBySorted(s, neg);
    SortByPermutes(s, neg);
    SortByStable(s, neg, -k);
    WithKeyNegated(s, key, k);
    WithKeyNegated(SortByDescending(s, key), key, k);
  }
}
