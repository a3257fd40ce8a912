/** Sorting a slice by a total order, as `slice::sort` does. The library's
    algorithm is not part of this model; what matters is its result, which a
    strict total order on the elements determines uniquely. */
module Sorting {

  ghost predicate StrictTotalOrder<T(!new)>(lt: (T, T) -> bool)
  {
    && (forall a :: !lt(a, a))
    && (forall a, b, c :: lt(a, b) && lt(b, c) ==> lt(a, c))
    && (forall a, b :: a != b ==> lt(a, b) || lt(b, a))
  }

  predicate Sorted<T>(xs: seq<T>, lt: (T, T) -> bool)
  {
    forall i, j | 0 <= i < j < |xs| :: !lt(xs[j], xs[i])
  }

  /** Insertion of `x` before the first element not below it. */
  function Insert<T>(x: T, xs: seq<T>, lt: (T, T) -> bool): seq<T>
  {
    if xs == [] then [x]
    else if lt(xs[0], x) then [xs[0]] + Insert(x, xs[1..], lt)
    else [x] + xs
  }

  /** Inserting into a sorted sequence keeps it sorted and adds `x`. */
  lemma {:induction false} InsertCorrect<T(!new)>(x: T, xs: seq<T>, lt: (T, T) -> bool)
    requires StrictTotalOrder(lt) && Sorted(xs, lt)
    ensures Sorted(Insert(x, xs, lt), lt)
    ensures multiset(Insert(x, xs, lt)) == multiset(xs) + multiset{x}
  {
    if xs != [] {
      assert xs == [xs[0]] + xs[1..];
      if lt(xs[0], x) {
        InsertCorrect(x, xs[1..], lt);
        InsertAfterHead(x, xs, Insert(x, xs[1..], lt), lt);
      } else {
        InsertAtHead(x, xs, lt);
      }
    }
  }

  lemma InsertAfterHead<T(!new)>(x: T, xs: seq<T>, rest: seq<T>, lt: (T, T) -> bool)
    requires StrictTotalOrder(lt) && Sorted(xs, lt) && xs != [] && lt(xs[0], x)
    requires Sorted(rest, lt) && multiset(rest) == multiset(xs[1..]) + multiset{x}
    ensures Sorted([xs[0]] + rest, lt)
  {
    forall k | 0 <= k < |rest|
      ensures !lt(rest[k], xs[0])
    {
      assert rest[k] in multiset(rest);
      if rest[k] != x {
        assert rest[k] in multiset(xs[1..]);
        var m :| 0 <= m < |xs[1..]| && xs[1..][m] == rest[k];
        assert xs[m + 1] == rest[k];
      }
    }
    var r := [xs[0]] + rest;
    forall i, j | 0 <= i < j < |r|
      ensures !lt(r[j], r[i])
    {
      if i == 0 {
        assert r[j] == rest[j - 1];
      } else {
        assert r[i] == rest[i - 1] && r[j] == rest[j - 1];
      }
    }
  }

  lemma InsertAtHead<T(!new)>(x: T, xs: seq<T>, lt: (T, T) -> bool)
    requires StrictTotalOrder(lt) && Sorted(xs, lt) && xs != [] && !lt(xs[0], x)
    ensures Sorted([x] + xs, lt)
  {
    var r := [x] + xs;
    forall i, j | 0 <= i < j < |r|
      ensures !lt(r[j], r[i])
    {
      if i == 0 {
        assert r[j] == xs[j - 1];
        assert x == xs[0] || lt(x, xs[0]);
        assert !lt(xs[j - 1], xs[0]);
      } else {
        assert r[i] == xs[i - 1] && r[j] == xs[j - 1];
      }
    }
  }

  /** Insertion sort: the model of the library's sort. */
  function Sort<T>(xs: seq<T>, lt: (T, T) -> bool): seq<T>
  {
    if xs == [] then [] else Insert(xs[0], Sort(xs[1..], lt), lt)
  }

  /** The result is sorted and is a permutation of the input. */
  lemma {:induction false} SortCorrect<T(!new)>(xs: seq<T>, lt: (T, T) -> bool)
    requires StrictTotalOrder(lt)
    ensures Sorted(Sort(xs, lt), lt) && multiset(Sort(xs, lt)) == multiset(xs) && |Sort(xs, lt)| == |xs|
  {
    if xs != [] {
      SortCorrect(xs[1..], lt);
      InsertCorrect(xs[0], Sort(xs[1..], lt), lt);
      assert xs == [xs[0]] + xs[1..];
    }
    assert |multiset(Sort(xs, lt))| == |Sort(xs, lt)|;
  }

  /** Two sorted sequences with the same elements are equal: sorting is a
      canonical form for a multiset. */
  lemma {:induction false} SortedUnique<T(!new)>(a: seq<T>, b: seq<T>, lt: (T, T) -> bool)
    requires StrictTotalOrder(lt)
    requires Sorted(a, lt) && Sorted(b, lt) && multiset(a) == multiset(b)
    ensures a == b
  {
    if a != [] {
      assert |multiset(a)| == |a| && |multiset(b)| == |b|;
      SameHead(a, b, lt);
      DropHead(a);
      DropHead(b);
      SortedTail(a, lt);
      SortedTail(b, lt);
      SortedUnique(a[1..], b[1..], lt);
      SameHeadAndTail(a, b);
    }
  }

  lemma SameHeadAndTail<T>(a: seq<T>, b: seq<T>)
    requires a != [] && b != [] && a[0] == b[0] && a[1..] == b[1..]
    ensures a == b
  {
    assert a == [a[0]] + a[1..];
    assert b == [b[0]] + b[1..];
  }

  /** Two nonempty sorted sequences with the same elements start alike. */
  lemma SameHead<T(!new)>(a: seq<T>, b: seq<T>, lt: (T, T) -> bool)
    requires StrictTotalOrder(lt)
    requires Sorted(a, lt) && Sorted(b, lt) && multiset(a) == multiset(b) && a != [] && b != []
    ensures a[0] == b[0]
  {
    assert a[0] in multiset(b) && b[0] in multiset(a);
    var i :| 0 <= i < |b| && b[i] == a[0];
    var j :| 0 <= j < |a| && a[j] == b[0];
    assert !lt(b[i], b[0]) && !lt(a[j], a[0]);
  }

  lemma DropHead<T>(a: seq<T>)
    requires a != []
    ensures multiset(a[1..]) == multiset(a) - multiset{a[0]}
  {
    assert a == [a[0]] + a[1..];
    assert multiset(a) == multiset{a[0]} + multiset(a[1..]);
  }

  lemma SortedTail<T>(a: seq<T>, lt: (T, T) -> bool)
    requires Sorted(a, lt) && a != []
    ensures Sorted(a[1..], lt)
  {
    forall i, j | 0 <= i < j < |a[1..]|
      ensures !lt(a[1..][j], a[1..][i])
    {
      assert a[1..][j] == a[j + 1] && a[1..][i] == a[i + 1];
    }
  }

  /** Sorting is idempotent, and two sequences sort to the same result
      exactly when they hold the same elements. */
  lemma SortCanonical<T(!new)>(a: seq<T>, b: seq<T>, lt: (T, T) -> bool)
    requires StrictTotalOrder(lt)
    ensures Sorted(a, lt) ==> Sort(a, lt) == a
    ensures Sort(Sort(a, lt), lt) == Sort(a, lt)
    ensures Sort(a, lt) == Sort(b, lt) <==> multiset(a) == multiset(b)
  {
    SortCorrect(a, lt);
    SortCorrect(b, lt);
    SortCorrect(Sort(a, lt), lt);
    if Sorted(a, lt) {
      SortedUnique(Sort(a, lt), a, lt);
    }
    SortedUnique(Sort(Sort(a, lt), lt), Sort(a, lt), lt);
    if multiset(a) == multiset(b) {
      SortedUnique(Sort(a, lt), Sort(b, lt), lt);
    }
  }
}
