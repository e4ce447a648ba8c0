/** `Array.prototype.sort` with a numeric comparator `(a, b) => key(a) - key(b)`,
    which the language requires to be stable. It is modelled by insertion
    sort; what pins it down is that the result is sorted by the key, is a
    permutation of the input, and keeps the input order among equal keys. */
module Sorting {
  import opened Seqs

  predicate SortedBy<T>(xs: seq<T>, key: T -> int) {
    forall i, j :: 0 <= i < j < |xs| ==> key(xs[i]) <= key(xs[j])
  }

  /** Puts `x` after the elements of `s` whose key is not larger than its own. */
  function Insert<T(!new)>(s: seq<T>, x: T, key: T -> int): (r: seq<T>)
    ensures |r| == |s| + 1
  {
    if s == [] then [x]
    else if key(s[|s| - 1]) <= key(x) then s + [x]
    else Insert(s[..|s| - 1], x, key) + [s[|s| - 1]]
  }

  lemma {:induction false} InsertPermutes<T(!new)>(s: seq<T>, x: T, key: T -> int)
    ensures multiset(Insert(s, x, key)) == multiset(s) + multiset{x}
  {
    if s != [] && key(s[|s| - 1]) > key(x) {
      var init, last := s[..|s| - 1], s[|s| - 1];
      InsertPermutes(init, x, key);
      assert s == init + [last];
    }
  }

  lemma {:induction false} InsertSorted<T(!new)>(s: seq<T>, x: T, key: T -> int)
    requires SortedBy(s, key)
    ensures SortedBy(Insert(s, x, key), key)
  {
    if s != [] && key(s[|s| - 1]) > key(x) {
      var init, last := s[..|s| - 1], s[|s| - 1];
      InsertSorted(init, x, key);
      var r := Insert(init, x, key);
      InsertPermutes(init, x, key);
      forall i | 0 <= i < |r| ensures key(r[i]) <= key(last) {
        assert r[i] in multiset(r);
        if r[i] != x {
          assert r[i] in multiset(init);
          var j :| 0 <= j < |init| && init[j] == r[i];
        }
      }
    }
  }

  /** The one-element group of `x` under key `k`, or nothing. */
  function Single<T>(x: T, key: T -> int, k: int): seq<T> {
    if key(x) == k then [x] else []
  }

  lemma {:induction false} InsertStable<T(!new)>(s: seq<T>, x: T, key: T -> int, k: int)
    ensures Select(Insert(s, x, key), key, k) == Select(s, key, k) + Single(x, key, k)
  {
    if s == [] {
      SelectSnoc([], x, key, k);
      assert [] + [x] == [x];
    } else if key(s[|s| - 1]) <= key(x) {
      SelectSnoc(s, x, key, k);
    } else {
      var init, last := s[..|s| - 1], s[|s| - 1];
      InsertStable(init, x, key, k);
      InsertStableStep(init, last, x, key, k);
      assert s == init + [last];
    }
  }

  /** The step of the proof above where `x` passes over the last element. */
  lemma InsertStableStep<T(!new)>(init: seq<T>, last: T, x: T, key: T -> int, k: int)
    requires key(last) > key(x)
    requires Select(Insert(init, x, key), key, k) == Select(init, key, k) + Single(x, key, k)
    ensures Select(Insert(init + [last], x, key), key, k) == Select(init + [last], key, k) + Single(x, key, k)
  {
    var s := init + [last];
    var r0 := Insert(init, x, key);
    assert s[..|s| - 1] == init;
    assert Insert(s, x, key) == r0 + [last];
    SelectSnoc(r0, last, key, k);
    SelectSnoc(init, last, key, k);
    if key(x) == k {
      assert Select(s, key, k) == Select(init, key, k);
      assert Select(r0 + [last], key, k) == Select(r0, key, k);
    } else {
      assert Single(x, key, k) == [];
      assert Select(init, key, k) + Single(x, key, k) == Select(init, key, k);
    }
  }

  /** `xs.slice().sort((a, b) => key(a) - key(b))`. */
  function SortBy<T(!new)>(xs: seq<T>, key: T -> int): (r: seq<T>)
    ensures |r| == |xs|
  {
    if xs == [] then [] else Insert(SortBy(xs[..|xs| - 1], key), xs[|xs| - 1], key)
  }

  /** Sorting neither loses nor invents elements. */
  lemma {:induction false} SortByPermutes<T(!new)>(xs: seq<T>, key: T -> int)
    ensures multiset(SortBy(xs, key)) == multiset(xs)
  {
    if xs != [] {
      var init, last := xs[..|xs| - 1], xs[|xs| - 1];
      SortByPermutes(init, key);
      InsertPermutes(SortBy(init, key), last, key);
      assert xs == init + [last];
    }
  }

  lemma {:induction false} SortBySorted<T(!new)>(xs: seq<T>, key: T -> int)
    ensures SortedBy(SortBy(xs, key), key)
  {
    if xs != [] {
      SortBySorted(xs[..|xs| - 1], key);
      InsertSorted(SortBy(xs[..|xs| - 1], key), xs[|xs| - 1], key);
    }
  }

  /** Stability: the elements sharing a key come out in the order they went in. */
  lemma {:induction false} SortByStable<T(!new)>(xs: seq<T>, key: T -> int, k: int)
    ensures Select(SortBy(xs, key), key, k) == Select(xs, key, k)
  {
    if xs != [] {
      var init, last := xs[..|xs| - 1], xs[|xs| - 1];
      calc {
        Select(SortBy(xs, key), key, k);
        Select(Insert(SortBy(init, key), last, key), key, k);
        { InsertStable(SortBy(init, key), last, key, k); }
        Select(SortBy(init, key), key, k) + Single(last, key, k);
        { SortByStable(init, key, k); }
        Select(init, key, k) + Single(last, key, k);
        { SelectSnoc(init, last, key, k); assert xs == init + [last]; }
        Select(xs, key, k);
      }
    }
  }

  /** Sorting something already sorted changes nothing. */
  lemma {:induction false} SortBySortedInput<T(!new)>(xs: seq<T>, key: T -> int)
    requires SortedBy(xs, key)
    ensures SortBy(xs, key) == xs
  {
    if xs != [] {
      var init, last := xs[..|xs| - 1], xs[|xs| - 1];
      SortBySortedInput(init, key);
      assert xs == init + [last];
    }
  }

  /** `xs.slice(0, n)`. */
  function Take<T>(xs: seq<T>, n: nat): (r: seq<T>)
    ensures |r| <= n && |r| <= |xs|
    ensures |xs| <= n ==> r == xs
    ensures |xs| > n ==> |r| == n
    ensures r == xs[..|r|]
  {
    if |xs| <= n then xs else xs[..n]
  }
}
