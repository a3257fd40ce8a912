/** `iter().filter(p).count()` over a slice. */
module Counting {

  function CountIf<T>(xs: seq<T>, p: T -> bool): (n: nat)
    ensures n <= |xs|
  {
    if xs == [] then 0 else (if p(xs[0]) then 1 else 0) + CountIf(xs[1..], p)
  }

  lemma {:induction false} CountIfAppend<T>(a: seq<T>, b: seq<T>, p: T -> bool)
    ensures CountIf(a + b, p) == CountIf(a, p) + CountIf(b, p)
  {
    if a != [] {
      assert (a + b)[1..] == a[1..] + b;
      CountIfAppend(a[1..], b, p);
    } else {
      assert a + b == b;
    }
  }

  /** The count does not depend on the order of the elements. */
  lemma {:induction false} CountIfPermutation<T>(a: seq<T>, b: seq<T>, p: T -> bool)
    requires multiset(a) == multiset(b)
    ensures CountIf(a, p) == CountIf(b, p)
  {
    if a == [] {
      assert |b| == |multiset(b)| == 0;
    } else {
      assert a[0] in multiset(b);
      var j :| 0 <= j < |b| && b[j] == a[0];
      var rest := b[..j] + b[j + 1..];
      assert b == b[..j] + [b[j]] + b[j + 1..];
      CountIfAppend(b[..j] + [b[j]], b[j + 1..], p);
      CountIfAppend(b[..j], [b[j]], p);
      CountIfAppend(b[..j], b[j + 1..], p);
      assert a == [a[0]] + a[1..];
      assert multiset(a[1..]) == multiset(a) - multiset{a[0]};
      assert multiset(rest) == multiset(b) - multiset{b[j]};
      CountIfPermutation(a[1..], rest, p);
    }
  }

  /** The count is positive exactly when some element satisfies `p`. */
  lemma {:induction false} CountIfPositive<T>(xs: seq<T>, p: T -> bool)
    ensures CountIf(xs, p) > 0 <==> exists i | 0 <= i < |xs| :: p(xs[i])
  {
    if xs != [] {
      CountIfPositive(xs[1..], p);
      if exists i | 0 <= i < |xs[1..]| :: p(xs[1..][i]) {
        var i :| 0 <= i < |xs[1..]| && p(xs[1..][i]);
        assert p(xs[i + 1]);
      }
      if exists i | 0 <= i < |xs| :: p(xs[i]) {
        var i :| 0 <= i < |xs| && p(xs[i]);
        if i > 0 {
          assert p(xs[1..][i - 1]);
        }
      }
    }
  }

  /** Replacing one element changes the count by what the two contribute. */
  lemma CountIfUpdate<T>(xs: seq<T>, i: nat, v: T, p: T -> bool)
    requires i < |xs|
    ensures CountIf(xs[i := v], p) + (if p(xs[i]) then 1 else 0) == CountIf(xs, p) + (if p(v) then 1 else 0)
  {
    assert xs == xs[..i] + [xs[i]] + xs[i + 1..];
    assert xs[i := v] == xs[..i] + [v] + xs[i + 1..];
    CountIfAppend(xs[..i] + [xs[i]], xs[i + 1..], p);
    CountIfAppend(xs[..i], [xs[i]], p);
    CountIfAppend(xs[..i] + [v], xs[i + 1..], p);
    CountIfAppend(xs[..i], [v], p);
  }

  /** Two complementary conditions split the elements between them. */
  lemma {:induction false} CountIfComplement<T>(xs: seq<T>, p: T -> bool, q: T -> bool)
    requires forall x :: p(x) != q(x)
    ensures CountIf(xs, p) + CountIf(xs, q) == |xs|
  {
    if xs != [] {
      CountIfComplement(xs[1..], p, q);
    }
  }

  /** Two different positions satisfying `p` make the count at least 2. */
  lemma CountIfTwo<T>(xs: seq<T>, p: T -> bool, i: nat, j: nat)
    requires i < |xs| && j < |xs| && i != j && p(xs[i]) && p(xs[j])
    ensures CountIf(xs, p) >= 2
  {
    var lo, hi := if i < j then i else j, if i < j then j else i;
    assert xs == xs[..hi] + xs[hi..];
    CountIfAppend(xs[..hi], xs[hi..], p);
    assert p(xs[..hi][lo]);
    CountIfPositive(xs[..hi], p);
    assert p(xs[hi..][0]);
    CountIfPositive(xs[hi..], p);
  }
}
