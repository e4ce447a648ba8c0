/** Generic sequence operations behind the components' `filter`, `reduce`,
    `map`-by-id and group-by-key code, with the facts the components rely on.
    Recursion runs from the back of a sequence, the order in which `forEach`
    and `reduce` visit it, so that a loop's step unfolds one definition. */
module Seqs {

  /** `xs.filter(p)`. */
  function Filter<T(!new)>(xs: seq<T>, p: T -> bool): (r: seq<T>)
    ensures |r| <= |xs|
    ensures forall x :: x in r <==> x in xs && p(x)
  {
    if xs == [] then []
    else
      var init := xs[..|xs| - 1];
      assert xs == init + [xs[|xs| - 1]];
      Filter(init, p) + if p(xs[|xs| - 1]) then [xs[|xs| - 1]] else []
  }

  /** A filter keeps every copy of what it keeps and no copy of anything else. */
  lemma {:induction false} FilterCount<T(!new)>(xs: seq<T>, p: T -> bool)
    ensures forall x :: multiset(Filter(xs, p))[x] == if p(x) then multiset(xs)[x] else 0
  {
    if xs != [] {
      var init := xs[..|xs| - 1];
      assert xs == init + [xs[|xs| - 1]];
      FilterCount(init, p);
    }
  }

  lemma FilterSnoc<T(!new)>(xs: seq<T>, x: T, p: T -> bool)
    ensures Filter(xs + [x], p) == Filter(xs, p) + if p(x) then [x] else []
  {
    assert (xs + [x])[..|xs|] == xs;
  }

  /** Filtering keeps the relative order: it distributes over concatenation. */
  lemma {:induction false} FilterConcat<T(!new)>(a: seq<T>, b: seq<T>, p: T -> bool)
    ensures Filter(a + b, p) == Filter(a, p) + Filter(b, p)
  {
    if b == [] {
      assert a + b == a;
    } else {
      var init, last := b[..|b| - 1], b[|b| - 1];
      var tail := if p(last) then [last] else [];
      assert a + b == (a + init) + [last];
      assert b == init + [last];
      FilterSnoc(a + init, last, p);
      FilterSnoc(init, last, p);
      FilterConcat(a, init, p);
    }
  }

  /** Keeping every element, or none, of a filter's input. */
  lemma {:induction false} FilterAll<T(!new)>(xs: seq<T>, p: T -> bool)
    requires forall x :: x in xs ==> p(x)
    ensures Filter(xs, p) == xs
  {
    if xs != [] {
      var init := xs[..|xs| - 1];
      assert xs == init + [xs[|xs| - 1]];
      FilterAll(init, p);
    }
  }

  /** `xs.reduce((acc, x) => acc + w(x), 0)`. */
  function SumOf<T(!new)>(xs: seq<T>, w: T -> int): int {
    if xs == [] then 0 else SumOf(xs[..|xs| - 1], w) + w(xs[|xs| - 1])
  }

  lemma {:induction false} SumOfConcat<T(!new)>(a: seq<T>, b: seq<T>, w: T -> int)
    ensures SumOf(a + b, w) == SumOf(a, w) + SumOf(b, w)
  {
    if b == [] {
      assert a + b == a;
    } else {
      var init := b[..|b| - 1];
      assert (a + b)[..|a + b| - 1] == a + init;
      assert (a + b)[|a + b| - 1] == b[|b| - 1];
      SumOfConcat(a, init, w);
    }
  }

  /** Summing from the front gives the same total. */
  lemma SumOfCons<T(!new)>(x: T, xs: seq<T>, w: T -> int)
    ensures SumOf([x] + xs, w) == w(x) + SumOf(xs, w)
  {
    SumOfConcat([x], xs, w);
    assert [x][..0] == [];
  }

  /** Sums of two weights add up term by term. */
  lemma {:induction false} SumOfLinear<T(!new)>(xs: seq<T>, f: T -> int, g: T -> int, h: T -> int)
    requires forall x :: h(x) == f(x) - g(x)
    ensures SumOf(xs, h) == SumOf(xs, f) - SumOf(xs, g)
  {
    if xs != [] {
      SumOfLinear(xs[..|xs| - 1], f, g, h);
    }
  }

  /** A sum of positive weights is positive unless there is nothing to sum. */
  lemma {:induction false} SumOfPositive<T(!new)>(xs: seq<T>, w: T -> int)
    requires forall x :: x in xs ==> w(x) > 0
    ensures SumOf(xs, w) >= 0
    ensures SumOf(xs, w) > 0 <==> xs != []
  {
    if xs != [] {
      var init := xs[..|xs| - 1];
      assert forall x :: x in init ==> x in xs;
      assert xs[|xs| - 1] in xs;
      SumOfPositive(init, w);
    }
  }

  /** Two lists matched position by position under their weights have the same sum. */
  lemma {:induction false} SumOfMatched<T(!new), U(!new)>(a: seq<T>, f: T -> int, b: seq<U>, g: U -> int)
    requires |a| == |b|
    requires forall i :: 0 <= i < |a| ==> f(a[i]) == g(b[i])
    ensures SumOf(a, f) == SumOf(b, g)
  {
    if a != [] {
      SumOfMatched(a[..|a| - 1], f, b[..|b| - 1], g);
    }
  }

  /** Filtering out only elements of weight zero keeps the sum. */
  lemma {:induction false} SumOfFilterZero<T(!new)>(xs: seq<T>, p: T -> bool, w: T -> int)
    requires forall x :: x in xs && !p(x) ==> w(x) == 0
    ensures SumOf(Filter(xs, p), w) == SumOf(xs, w)
  {
    if xs != [] {
      var init, last := xs[..|xs| - 1], xs[|xs| - 1];
      assert xs == init + [last];
      assert forall x :: x in init ==> x in xs;
      SumOfFilterZero(init, p, w);
      assert last in xs;
      SumOfConcat(Filter(init, p), if p(last) then [last] else [], w);
      var one: seq<T> := [last];
      assert one[..0] == [];
    }
  }

  /** Filtering out elements of weight at most zero never lowers the sum. */
  lemma {:induction false} SumOfFilterNonPositive<T(!new)>(xs: seq<T>, p: T -> bool, w: T -> int)
    requires forall x :: x in xs && !p(x) ==> w(x) <= 0
    ensures SumOf(Filter(xs, p), w) >= SumOf(xs, w)
  {
    if xs != [] {
      var init, last := xs[..|xs| - 1], xs[|xs| - 1];
      assert xs == init + [last];
      assert forall x :: x in init ==> x in xs;
      SumOfFilterNonPositive(init, p, w);
      assert last in xs;
      SumOfConcat(Filter(init, p), if p(last) then [last] else [], w);
      var one: seq<T> := [last];
      assert one[..0] == [];
    }
  }

  /** Counting with weight one is taking the length. */
  lemma {:induction false} SumOfOne<T(!new)>(xs: seq<T>, one: T -> int)
    requires forall x :: one(x) == 1
    ensures SumOf(xs, one) == |xs|
  {
    if xs != [] {
      SumOfOne(xs[..|xs| - 1], one);
    }
  }

  /** The elements of `xs` whose key is `k`, in order. */
  function Select<T(!new), K(==,!new)>(xs: seq<T>, key: T -> K, k: K): (r: seq<T>)
    ensures |r| <= |xs|
    ensures forall x :: x in r <==> x in xs && key(x) == k
  {
    if xs == [] then []
    else
      var init := xs[..|xs| - 1];
      assert xs == init + [xs[|xs| - 1]];
      Select(init, key, k) + if key(xs[|xs| - 1]) == k then [xs[|xs| - 1]] else []
  }

  lemma {:induction false} SelectConcat<T(!new), K(!new)>(a: seq<T>, b: seq<T>, key: T -> K, k: K)
    ensures Select(a + b, key, k) == Select(a, key, k) + Select(b, key, k)
  {
    if b == [] {
      assert a + b == a;
    } else {
      var init, last := b[..|b| - 1], b[|b| - 1];
      assert a + b == (a + init) + [last];
      assert b == init + [last];
      SelectSnoc(a + init, last, key, k);
      SelectSnoc(init, last, key, k);
      SelectConcat(a, init, key, k);
    }
  }

  /** One more element joins the group of its own key and no other. */
  lemma SelectSnoc<T(!new), K(!new)>(xs: seq<T>, x: T, key: T -> K, k: K)
    ensures Select(xs + [x], key, k) == Select(xs, key, k) + if key(x) == k then [x] else []
  {
    assert (xs + [x])[..|xs|] == xs;
  }

  /** Total weight of the elements whose key is `k`. */
  function SumWhere<T(!new), K(==,!new)>(xs: seq<T>, key: T -> K, w: T -> int, k: K): int {
    SumOf(Select(xs, key, k), w)
  }

  lemma SumWhereSnoc<T(!new), K(!new)>(xs: seq<T>, x: T, key: T -> K, w: T -> int, k: K)
    ensures SumWhere(xs + [x], key, w, k) == SumWhere(xs, key, w, k) + if key(x) == k then w(x) else 0
  {
    assert (xs + [x])[..|xs|] == xs;
    if key(x) == k {
      assert (Select(xs, key, k) + [x])[..|Select(xs, key, k)|] == Select(xs, key, k);
    } else {
      assert Select(xs + [x], key, k) == Select(xs, key, k);
    }
  }

  /** A key no element carries has nothing to sum. */
  lemma {:induction false} SumWhereAbsent<T(!new), K(!new)>(xs: seq<T>, key: T -> K, w: T -> int, k: K)
    requires forall x :: x in xs ==> key(x) != k
    ensures Select(xs, key, k) == [] && SumWhere(xs, key, w, k) == 0
  {
    if xs != [] {
      var init := xs[..|xs| - 1];
      assert xs == init + [xs[|xs| - 1]];
      SumWhereAbsent(init, key, w, k);
    }
  }

  /** `xs.map(key)`. */
  function Keys<T(!new), K(==,!new)>(xs: seq<T>, key: T -> K): (r: seq<K>)
    ensures |r| == |xs|
    ensures forall i :: 0 <= i < |xs| ==> r[i] == key(xs[i])
  {
    if xs == [] then []
    else Keys(xs[..|xs| - 1], key) + [key(xs[|xs| - 1])]
  }

  /** Two lists of the same length whose elements have the same key position
      by position have the same keys. */
  lemma KeysPointwise<T(!new), K(!new)>(a: seq<T>, b: seq<T>, key: T -> K)
    requires |a| == |b|
    requires forall i :: 0 <= i < |a| ==> key(a[i]) == key(b[i])
    ensures Keys(a, key) == Keys(b, key)
  {
  }

  predicate NoDuplicates<K(==,!new)>(ks: seq<K>) {
    forall i, j :: 0 <= i < j < |ks| ==> ks[i] != ks[j]
  }

  /** The keys of `ks` in order of first occurrence: the key order of a
      JavaScript object filled from `ks`. */
  function Distinct<K(==,!new)>(ks: seq<K>): (r: seq<K>)
    ensures NoDuplicates(r)
    ensures forall k :: k in r <==> k in ks
  {
    if ks == [] then []
    else
      var init := Distinct(ks[..|ks| - 1]);
      var k := ks[|ks| - 1];
      assert ks == ks[..|ks| - 1] + [k];
      if k in init then init else init + [k]
  }

  /** Sum, over the distinct keys `ds`, of each key's total weight. */
  function SumKeyed<T(!new), K(==,!new)>(ds: seq<K>, xs: seq<T>, key: T -> K, w: T -> int): int {
    if ds == [] then 0 else SumWhere(xs, key, w, ds[0]) + SumKeyed(ds[1..], xs, key, w)
  }

  /** Total weight of the elements whose key is one of `ds`. */
  function SumIn<T(!new), K(==,!new)>(xs: seq<T>, key: T -> K, w: T -> int, ds: seq<K>): int {
    if xs == [] then 0
    else SumIn(xs[..|xs| - 1], key, w, ds) + if key(xs[|xs| - 1]) in ds then w(xs[|xs| - 1]) else 0
  }

  /** Taking the first key off a duplicate-free sequence. */
  lemma NoDuplicatesTail<K(!new)>(ds: seq<K>)
    requires ds != [] && NoDuplicates(ds)
    ensures NoDuplicates(ds[1..]) && ds[0] !in ds[1..]
    ensures forall k :: k in ds <==> k == ds[0] || k in ds[1..]
  {
    assert ds == [ds[0]] + ds[1..];
    forall i, j | 0 <= i < j < |ds[1..]| ensures ds[1..][i] != ds[1..][j] {
      assert ds[1..][i] == ds[i + 1] && ds[1..][j] == ds[j + 1];
    }
    forall j | 0 <= j < |ds[1..]| ensures ds[1..][j] != ds[0] {
      assert ds[1..][j] == ds[j + 1];
    }
  }

  lemma {:induction false} SumKeyedSnoc<T(!new), K(!new)>(ds: seq<K>, xs: seq<T>, x: T, key: T -> K, w: T -> int)
    requires NoDuplicates(ds)
    ensures SumKeyed(ds, xs + [x], key, w) == SumKeyed(ds, xs, key, w) + if key(x) in ds then w(x) else 0
  {
    if ds != [] {
      NoDuplicatesTail(ds);
      SumWhereSnoc(xs, x, key, w, ds[0]);
      SumKeyedSnoc(ds[1..], xs, x, key, w);
    }
  }

  /** Grouping by key and summing the groups loses nothing and counts nothing twice. */
  lemma {:induction false} SumKeyedIsSumIn<T(!new), K(!new)>(ds: seq<K>, xs: seq<T>, key: T -> K, w: T -> int)
    requires NoDuplicates(ds)
    ensures SumKeyed(ds, xs, key, w) == SumIn(xs, key, w, ds)
  {
    if xs == [] {
      SumKeyedEmpty(ds, key, w);
    } else {
      var init := xs[..|xs| - 1];
      assert xs == init + [xs[|xs| - 1]];
      SumKeyedIsSumIn(ds, init, key, w);
      SumKeyedSnoc(ds, init, xs[|xs| - 1], key, w);
    }
  }

  lemma {:induction false} SumKeyedEmpty<T(!new), K(!new)>(ds: seq<K>, key: T -> K, w: T -> int)
    ensures SumKeyed(ds, [], key, w) == 0
  {
    if ds != [] {
      SumKeyedEmpty(ds[1..], key, w);
    }
  }

  /** When every key is among `ds`, the grouped total is the plain total. */
  lemma {:induction false} SumInAll<T(!new), K(!new)>(xs: seq<T>, key: T -> K, w: T -> int, ds: seq<K>)
    requires forall x :: x in xs ==> key(x) in ds
    ensures SumIn(xs, key, w, ds) == SumOf(xs, w)
  {
    if xs != [] {
      SumInAll(xs[..|xs| - 1], key, w, ds);
    }
  }

  /** The grouped total over `ds` is the total of the elements a filter keeps
      exactly when their key is among `ds`. */
  lemma {:induction false} SumInFilter<T(!new), K(!new)>(xs: seq<T>, key: T -> K, w: T -> int, ds: seq<K>, p: T -> bool)
    requires forall x :: p(x) <==> key(x) in ds
    ensures SumIn(xs, key, w, ds) == SumOf(Filter(xs, p), w)
  {
    if xs != [] {
      var init, x := xs[..|xs| - 1], xs[|xs| - 1];
      SumInFilter(init, key, w, ds, p);
      var tail := if p(x) then [x] else [];
      SumOfConcat(Filter(init, p), tail, w);
    }
  }

  /** `xs.map(x => idOf(x) === idOf(y) ? y : x)`. */
  function ReplaceById<T(!new)>(xs: seq<T>, idOf: T -> string, y: T): (r: seq<T>)
    ensures |r| == |xs|
    ensures forall i :: 0 <= i < |xs| ==> r[i] == if idOf(xs[i]) == idOf(y) then y else xs[i]
  {
    if xs == [] then []
    else ReplaceById(xs[..|xs| - 1], idOf, y) + [if idOf(xs[|xs| - 1]) == idOf(y) then y else xs[|xs| - 1]]
  }

  /** `xs.filter(x => idOf(x) !== id)`. */
  function RemoveById<T(!new)>(xs: seq<T>, idOf: T -> string, id: string): (r: seq<T>)
    ensures forall x :: multiset(r)[x] == if idOf(x) == id then 0 else multiset(xs)[x]
    ensures forall x :: x in r ==> idOf(x) != id
    ensures |r| <= |xs|
  {
    FilterCount(xs, x => idOf(x) != id);
    Filter(xs, x => idOf(x) != id)
  }

  /** Removing by id keeps the survivors' order: it distributes over concatenation. */
  lemma RemoveByIdConcat<T(!new)>(a: seq<T>, b: seq<T>, idOf: T -> string, id: string)
    ensures RemoveById(a + b, idOf, id) == RemoveById(a, idOf, id) + RemoveById(b, idOf, id)
  {
    FilterConcat(a, b, x => idOf(x) != id);
  }

  /** Removing an id nobody carries changes nothing. */
  lemma RemoveByIdAbsent<T(!new)>(xs: seq<T>, idOf: T -> string, id: string)
    requires forall x :: x in xs ==> idOf(x) != id
    ensures RemoveById(xs, idOf, id) == xs
  {
    FilterAll(xs, x => idOf(x) != id);
  }
}
