/** Python's `list.sort(key=...)` with a key that is a pair of numbers,
    compared lexicographically as Python compares tuples. The sort is
    stable: elements with equal keys keep their relative order. It is
    modelled as a pure function on the list's contents (the source calls
    the library sort; the list is reassigned with the result). */
module Sorting {

  type Key = (int, int)

  /** Tuple comparison `a <= b`. */
  predicate KeyLe(a: Key, b: Key) {
    a.0 < b.0 || (a.0 == b.0 && a.1 <= b.1)
  }

  ghost predicate SortedBy<T>(s: seq<T>, key: T -> Key) {
    forall i, j :: 0 <= i < j < |s| ==> KeyLe(key(s[i]), key(s[j]))
  }

  /** The elements of `s` whose key is `k`, in their order in `s`. */
  function WithKey<T>(s: seq<T>, key: T -> Key, k: Key): seq<T> {
    if s == [] then []
    else WithKey(s[..|s| - 1], key, k) + (if key(s[|s| - 1]) == k then [s[|s| - 1]] else [])
  }

  /** Places `x` after every element of `s` whose key is at most its own. */
  function Insert<T>(s: seq<T>, x: T, key: T -> Key): (r: seq<T>)
    ensures |r| == |s| + 1
  {
    if s == [] then [x]
    else if KeyLe(key(s[|s| - 1]), key(x)) then s + [x]
    else Insert(s[..|s| - 1], x, key) + [s[|s| - 1]]
  }

  /** Stable sort by key (insertion sort). */
  function SortBy<T>(s: seq<T>, key: T -> Key): (r: seq<T>)
    ensures |r| == |s|
  {
    if s == [] then [] else Insert(SortBy(s[..|s| - 1], key), s[|s| - 1], key)
  }

  lemma {:induction false} InsertPermutes<T>(s: seq<T>, x: T, key: T -> Key)
    ensures multiset(Insert(s, x, key)) == multiset(s) + multiset{x}
  {
    if s != [] && !KeyLe(key(s[|s| - 1]), key(x)) {
      InsertPermutes(s[..|s| - 1], x, key);
      assert s == s[..|s| - 1] + [s[|s| - 1]];
    }
  }

  /** The sorted list is a permutation of the input. */
  lemma {:induction false} SortByPermutes<T>(s: seq<T>, key: T -> Key)
    ensures multiset(SortBy(s, key)) == multiset(s)
  {
    if s != [] {
      SortByPermutes(s[..|s| - 1], key);
      InsertPermutes(SortBy(s[..|s| - 1], key), s[|s| - 1], key);
      assert s == s[..|s| - 1] + [s[|s| - 1]];
    }
  }

  lemma SortByMembers<T>(s: seq<T>, key: T -> Key)
    ensures forall x :: x in SortBy(s, key) <==> x in s
  {
    SortByPermutes(s, key);
    forall x ensures x in SortBy(s, key) <==> x in s {
      assert x in SortBy(s, key) <==> x in multiset(SortBy(s, key));
      assert x in s <==> x in multiset(s);
    }
  }

  lemma {:induction false} InsertSorted<T>(s: seq<T>, x: T, key: T -> Key)
    requires SortedBy(s, key)
    ensures SortedBy(Insert(s, x, key), key)
    ensures forall y :: y in Insert(s, x, key) ==> y == x || y in s
  {
    if s != [] && !KeyLe(key(s[|s| - 1]), key(x)) {
      var t := s[..|s| - 1];
      InsertSorted(t, x, key);
      var r := Insert(t, x, key);
      forall y | y in r ensures KeyLe(key(y), key(s[|s| - 1])) {
        if y != x {
          var i :| 0 <= i < |t| && t[i] == y;
          assert s[i] == y;
        }
      }
    }
  }

  /** The result is ordered by key. */
  lemma {:induction false} SortBySorted<T>(s: seq<T>, key: T -> Key)
    ensures SortedBy(SortBy(s, key), key)
  {
    if s != [] {
      SortBySorted(s[..|s| - 1], key);
      InsertSorted(SortBy(s[..|s| - 1], key), s[|s| - 1], key);
    }
  }

  lemma WithKeySingle<T>(x: T, key: T -> Key, k: Key)
    ensures WithKey([x], key, k) == if key(x) == k then [x] else []
  {
    assert [x][..0] == [];
  }

  lemma {:induction false} WithKeyAppend<T>(s: seq<T>, t: seq<T>, key: T -> Key, k: Key)
    ensures WithKey(s + t, key, k) == WithKey(s, key, k) + WithKey(t, key, k)
    decreases |t|
  {
    if t == [] {
      assert s + t == s;
    } else {
      var u, last := t[..|t| - 1], t[|t| - 1];
      assert (s + t)[..|s + t| - 1] == s + u;
      assert (s + t)[|s + t| - 1] == last;
      WithKeyAppend(s, u, key, k);
    }
  }

  lemma {:induction false} InsertStable<T>(s: seq<T>, x: T, key: T -> Key, k: Key)
    requires SortedBy(s, key)
    ensures WithKey(Insert(s, x, key), key, k) == WithKey(s, key, k) + WithKey([x], key, k)
  {
    if s == [] {
      assert Insert(s, x, key) == [x];
      assert WithKey(s, key, k) == [];
    } else if KeyLe(key(s[|s| - 1]), key(x)) {
      assert Insert(s, x, key) == s + [x];
      WithKeyAppend(s, [x], key, k);
    } else {
      var t, last := s[..|s| - 1], s[|s| - 1];
      assert SortedBy(t, key);
      assert Insert(s, x, key) == Insert(t, x, key) + [last];
      InsertStable(t, x, key, k);
      WithKeyAppend(Insert(t, x, key), [last], key, k);
      assert s == t + [last];
      WithKeyAppend(t, [last], key, k);
      WithKeySingle(x, key, k);
      WithKeySingle(last, key, k);
      // `last` has a larger key than `x`, so at most one of them has key `k`
      assert key(last) != key(x);
    }
  }

  /** Stability: for every key, the elements with that key appear in the
      sorted list in the same order as in the input. */
  lemma {:induction false} SortByStable<T>(s: seq<T>, key: T -> Key, k: Key)
    ensures WithKey(SortBy(s, key), key, k) == WithKey(s, key, k)
  {
    if s != [] {
      var t, last := s[..|s| - 1], s[|s| - 1];
      SortByStable(t, key, k);
      SortBySorted(t, key);
      InsertStable(SortBy(t, key), last, key, k);
      WithKeyAppend(t, [last], key, k);
      assert s == t + [last];
    }
  }

  /** Sorting a list that is already in key order changes nothing. */
  lemma {:induction false} SortByOfSorted<T>(s: seq<T>, key: T -> Key)
    requires SortedBy(s, key)
    ensures SortBy(s, key) == s
  {
    if s != [] {
      var t := s[..|s| - 1];
      assert SortedBy(t, key);
      SortByOfSorted(t, key);
      if |t| > 0 {
        assert KeyLe(key(t[|t| - 1]), key(s[|s| - 1]));
      }
    }
  }

  /** A prefix of a sorted list is sorted. */
  lemma SortedPrefix<T>(s: seq<T>, key: T -> Key, n: nat)
    requires SortedBy(s, key) && n <= |s|
    ensures SortedBy(s[..n], key)
  {
  }
}
