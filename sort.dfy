/** Array.prototype.sort with a numeric comparator `(a, b) => key(a) - key(b)`,
    which the engine performs stably: an insertion sort on values. */
module Sorting {

  /** Non-decreasing in the key. */
  ghost predicate SortedBy<T>(s: seq<T>, key: T -> real)
  {
    forall i, j :: 0 <= i < j < |s| ==> key(s[i]) <= key(s[j])
  }

  /** The elements of s whose key is k, in order. */
  function WithKey<T>(s: seq<T>, key: T -> real, k: real): seq<T>
  {
    if s == [] then []
    else WithKey(s[..|s| - 1], key, k) + (if key(s[|s| - 1]) == k then [s[|s| - 1]] else [])
  }

  /** x inserted after the last element whose key is not above x's (into a
      sorted s: after every such element). */
  function InsertBy<T>(x: T, s: seq<T>, key: T -> real): seq<T>
  {
    if s == [] then [x]
    else if key(s[|s| - 1]) <= key(x) then s + [x]
    else InsertBy(x, s[..|s| - 1], key) + [s[|s| - 1]]
  }

  /** Inserting adds x and nothing else. */
  lemma {:induction false} InsertByPermutes<T>(x: T, s: seq<T>, key: T -> real)
    ensures multiset(InsertBy(x, s, key)) == multiset(s) + multiset{x}
    ensures |InsertBy(x, s, key)| == |s| + 1
  {
    if s != [] && key(s[|s| - 1]) > key(x) {
      var front := s[..|s| - 1];
      InsertByPermutes(x, front, key);
      assert s == front + [s[|s| - 1]];
    }
  }

  /** Inserting into a sorted sequence keeps it sorted. */
  lemma {:induction false} InsertBySorted<T>(x: T, s: seq<T>, key: T -> real)
    requires SortedBy(s, key)
    ensures SortedBy(InsertBy(x, s, key), key)
  {
    if s != [] && key(s[|s| - 1]) > key(x) {
      var front := s[..|s| - 1];
      var last := s[|s| - 1];
      assert SortedBy(front, key);
      InsertBySorted(x, front, key);
      InsertByPermutes(x, front, key);
      var ins := InsertBy(x, front, key);
      forall i | 0 <= i < |ins|
        ensures key(ins[i]) <= key(last)
      {
        assert ins[i] in multiset(front) + multiset{x};
        if ins[i] in multiset(front) {
          var j :| 0 <= j < |front| && front[j] == ins[i];
          assert s[j] == front[j];
        }
      }
    }
  }

  /** The stable sort by key. */
  function SortBy<T>(s: seq<T>, key: T -> real): (r: seq<T>)
    ensures SortedBy(r, key)
    ensures multiset(r) == multiset(s)
    ensures |r| == |s|
  {
    if s == [] then []
    else
      var front := s[..|s| - 1];
      var sorted := SortBy(front, key);
      InsertBySorted(s[|s| - 1], sorted, key);
      InsertByPermutes(s[|s| - 1], sorted, key);
      assert s == front + [s[|s| - 1]];
      InsertBy(s[|s| - 1], sorted, key)
  }

  // ---------------------------------------------------------------- stability

  lemma WithKeyAppend<T>(s: seq<T>, x: T, key: T -> real, k: real)
    ensures WithKey(s + [x], key, k) == WithKey(s, key, k) + (if key(x) == k then [x] else [])
  {
    assert (s + [x])[..|s + [x]| - 1] == s;
  }

  /** Inserting x keeps the elements of each key in order, x after those of its own key. */
  lemma {:induction false} InsertByStable<T>(x: T, s: seq<T>, key: T -> real, k: real)
    ensures WithKey(InsertBy(x, s, key), key, k) == WithKey(s, key, k) + (if key(x) == k then [x] else [])
  {
    if s == [] {
      WithKeyAppend([], x, key, k);
    } else if key(s[|s| - 1]) <= key(x) {
      WithKeyAppend(s, x, key, k);
    } else {
      var front := s[..|s| - 1];
      var last := s[|s| - 1];
      InsertByStable(x, front, key, k);
      WithKeyAppend(InsertBy(x, front, key), last, key, k);
      WithKeyAppend(front, last, key, k);
      assert s == front + [last];
    }
  }

  /** The sort is stable: the elements of each key come out in their input order. */
  lemma {:induction false} SortByStable<T>(s: seq<T>, key: T -> real, k: real)
    ensures WithKey(SortBy(s, key), key, k) == WithKey(s, key, k)
  {
    if s != [] {
      var front := s[..|s| - 1];
      SortByStable(front, key, k);
      InsertByStable(s[|s| - 1], SortBy(front, key), key, k);
    }
  }

  /** Sorting a sorted sequence leaves it as it is. */
  lemma {:induction false} SortBySorted<T>(s: seq<T>, key: T -> real)
    requires SortedBy(s, key)
    ensures SortBy(s, key) == s
  {
    if s != [] {
      var front := s[..|s| - 1];
      assert SortedBy(front, key);
      SortBySorted(front, key);
      assert s == front + [s[|s| - 1]];
    }
  }
}
