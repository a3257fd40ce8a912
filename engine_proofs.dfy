/** What `build` computes: exactly the winning ways of grouping the tiles,
    each annotated at one group holding the winning tile. */
module EngineProofs {
  import opened Wrappers
  import opened Tiles
  import opened Kinds
  import opened Waits
  import opened Mentsus
  import opened Counts
  import opened Counting
  import opened Engine
  import Sorting

  /** The tiles a list of groups is made of. */
  ghost function GroupTiles(ms: seq<Mentsu>): multiset<Tile>
  {
    if ms == [] then multiset{} else Members(ms[0].kind) + GroupTiles(ms[1..])
  }

  lemma {:induction false} GroupTilesAppend(a: seq<Mentsu>, b: seq<Mentsu>)
    ensures GroupTiles(a + b) == GroupTiles(a) + GroupTiles(b)
  {
    if a == [] {
      assert a + b == b;
    } else {
      assert (a + b)[1..] == a[1..] + b;
      GroupTilesAppend(a[1..], b);
    }
  }

  /** Taking group `q` out of a list takes its tiles out. */
  lemma GroupTilesRemove(g: seq<Mentsu>, q: nat)
    requires q < |g|
    ensures GroupTiles(g) == Members(g[q].kind) + GroupTiles(g[..q] + g[q + 1..])
    ensures multiset(g) == multiset{g[q]} + multiset(g[..q] + g[q + 1..])
  {
    RemoveTiles(g, q);
    RemoveGroup(g, q);
  }

  lemma {:induction false} RemoveTiles(g: seq<Mentsu>, q: nat)
    requires q < |g|
    ensures GroupTiles(g) == Members(g[q].kind) + GroupTiles(g[..q] + g[q + 1..])
  {
    var rest := g[..q] + g[q + 1..];
    if q == 0 {
      assert rest == g[1..];
    } else {
      RemoveTiles(g[1..], q - 1);
      assert rest[0] == g[0];
      assert rest[1..] == g[1..][..q - 1] + g[1..][q..];
    }
  }

  lemma RemoveGroup(g: seq<Mentsu>, q: nat)
    requires q < |g|
    ensures multiset(g) == multiset{g[q]} + multiset(g[..q] + g[q + 1..])
  {
    assert g == g[..q] + [g[q]] + g[q + 1..];
  }

  /** A tile of the list lies in one of its groups. */
  lemma {:induction false} GroupTilesMember(g: seq<Mentsu>, t: Tile)
    requires t in GroupTiles(g)
    ensures exists q | 0 <= q < |g| :: t in Members(g[q].kind)
  {
    if t !in Members(g[0].kind) {
      GroupTilesMember(g[1..], t);
      var q :| 0 <= q < |g[1..]| && t in Members(g[1..][q].kind);
      assert t in Members(g[q + 1].kind);
    }
  }

  /** Every group has tiles, so only the empty list has none. */
  lemma GroupTilesEmpty(g: seq<Mentsu>)
    requires GroupTiles(g) == multiset{}
    ensures g == []
  {
  }

  /** A group as `Mentsu::new` builds it: closed and without a wait. */
  predicate Fresh(m: Mentsu)
  {
    m == New(m.kind)
  }

  /** `h` is a way of grouping the tiles `tiles` into well-formed fresh groups. */
  ghost predicate IsGrouping(h: seq<Mentsu>, tiles: multiset<Tile>)
  {
    (forall m | m in h :: Fresh(m) && WellFormed(m.kind)) && GroupTiles(h) == tiles
  }

  /** The cursor has passed only exhausted entries. */
  ghost predicate ZeroBefore(c: Counts, i: nat)
  {
    forall k | 0 <= k < i && k < |c| :: c[k].1 == 0
  }

  lemma AllZero(c: Counts)
    requires Ordered(c) && ZeroBefore(c, |c|)
    ensures Contents(c) == multiset{}
  {
    forall t
      ensures Contents(c)[t] == 0
    {
      ContentsAt(c, t);
    }
  }

  /** Past exhausted entries, the current key is the least tile left. */
  lemma MinimalKey(c: Counts, i: nat, u: Tile)
    requires Ordered(c) && i < |c| && ZeroBefore(c, i) && Contents(c)[u] > 0
    ensures u == c[i].0 || Tiles.Less(c[i].0, u)
  {
    PositiveIsKey(c, u);
    var k :| 0 <= k < |c| && c[k] == (u, Get(c, u).value);
    assert k >= i;
  }

  lemma ZeroBeforeDecremented(c: Counts, i: nat, ts: seq<Tile>)
    requires Enough(c, ts) && ZeroBefore(c, i)
    ensures ZeroBefore(Decremented(c, ts), i)
  {
  }

  /** A list that starts with `prefix + [m]` starts with `prefix`, and what
      follows `prefix` is `m` and then the rest. */
  lemma SplitAfter(r: seq<Mentsu>, prefix: seq<Mentsu>, m: Mentsu)
    requires |prefix| + 1 <= |r| && r[..|prefix| + 1] == prefix + [m]
    ensures r[..|prefix|] == prefix
    ensures r[|prefix|..] == [m] + r[|prefix| + 1..]
    ensures GroupTiles(r[|prefix|..]) == Members(m.kind) + GroupTiles(r[|prefix| + 1..])
    ensures forall x | x in r[|prefix|..] :: x == m || x in r[|prefix| + 1..]
    ensures multiset(r[|prefix|..]) == multiset{m} + multiset(r[|prefix| + 1..])
  {
    assert r[..|prefix|] == r[..|prefix| + 1][..|prefix|];
    assert r[|prefix|..] == [m] + r[|prefix| + 1..];
    GroupTilesAppend([m], r[|prefix| + 1..]);
  }

  // -------------------------------------------------------------- soundness

  /** Every interpretation `rec_build` returns extends the groups so far by
      well-formed fresh groups that use up exactly the counted tiles. */
  lemma {:induction false} EnumerateSound(c: Counts, i: nat, prefix: seq<Mentsu>, r: seq<Mentsu>)
    requires Ordered(c) && i <= |c| && ZeroBefore(c, i)
    requires r in Enumerate(c, i, prefix)
    ensures |prefix| <= |r| && r[..|prefix|] == prefix
    ensures IsGrouping(r[|prefix|..], Contents(c))
    decreases Total(c), |c| - i, 2
  {
    if i == |c| {
      AllZero(c);
      assert r == prefix;
    } else if c[i].1 == 0 {
      EnumerateSound(c, i + 1, prefix, r);
    } else {
      TriesSound(c, i, prefix, r);
    }
  }

  /** The four branches at a nonzero entry. */
  lemma {:induction false} TriesSound(c: Counts, i: nat, prefix: seq<Mentsu>, r: seq<Mentsu>)
    requires Ordered(c) && i < |c| && ZeroBefore(c, i) && c[i].1 > 0
    requires r in Enumerate(c, i, prefix)
    ensures |prefix| <= |r| && r[..|prefix|] == prefix
    ensures IsGrouping(r[|prefix|..], Contents(c))
    decreases Total(c), |c| - i, 1
  {
    var t := c[i].0;
    TakeSame(c, i, Pair(t));
    TakeSame(c, i, Triplet(t));
    TakeSame(c, i, Quad(t));
    if r in Try(c, i, prefix, Pair(t), c[i].1 >= 2) {
      BranchSound(c, i, prefix, Pair(t), r);
    } else if r in Try(c, i, prefix, Triplet(t), c[i].1 >= 3) {
      BranchSound(c, i, prefix, Triplet(t), r);
    } else if r in Try(c, i, prefix, Quad(t), c[i].1 >= 4) {
      BranchSound(c, i, prefix, Quad(t), r);
    } else {
      assert SequenceFits(c, t);
      TakeSequence(c, i);
      AddProperties(t, 1);
      AddProperties(t, 2);
      BranchSound(c, i, prefix, SequenceFrom(t), r);
    }
  }

  lemma {:induction false} BranchSound(c: Counts, i: nat, prefix: seq<Mentsu>, k: Kind, r: seq<Mentsu>)
    requires Ordered(c) && i < |c| && ZeroBefore(c, i) && Takeable(c, k) && WellFormed(k)
    requires r in Branch(c, i, prefix, k)
    ensures |prefix| <= |r| && r[..|prefix|] == prefix
    ensures IsGrouping(r[|prefix|..], Contents(c))
    decreases Total(c), |c| - i, 0
  {
    var d := Decremented(c, Consumed(k));
    DecrementedContents(c, Consumed(k));
    ZeroBeforeDecremented(c, i, Consumed(k));
    var p := With(prefix, New(k));
    assert r in Enumerate(d, i, p);
    EnumerateSound(d, i, p, r);
    SplitAfter(r, prefix, New(k));
  }

  // ----------------------------------------------------------- completeness

  /** Every way of grouping the counted tiles into well-formed groups is
      among the interpretations `rec_build` returns, up to order. */
  lemma {:induction false} EnumerateComplete(c: Counts, i: nat, prefix: seq<Mentsu>, g: seq<Mentsu>)
    requires Ordered(c) && i <= |c| && ZeroBefore(c, i)
    requires IsGrouping(g, Contents(c))
    ensures exists r :: r in Enumerate(c, i, prefix) && |prefix| <= |r| && r[..|prefix|] == prefix
                        && multiset(r[|prefix|..]) == multiset(g)
    decreases Total(c), |c| - i, 2
  {
    if i == |c| {
      AllZero(c);
      GroupTilesEmpty(g);
      var r := prefix;
      assert r in Enumerate(c, i, prefix) && r[|prefix|..] == [];
    } else if c[i].1 == 0 {
      EnumerateComplete(c, i + 1, prefix, g);
    } else {
      TriesComplete(c, i, prefix, g);
    }
  }

  /** The group holding the least tile left is tried at the cursor. */
  lemma {:induction false} TriesComplete(c: Counts, i: nat, prefix: seq<Mentsu>, g: seq<Mentsu>)
    requires Ordered(c) && i < |c| && ZeroBefore(c, i) && c[i].1 > 0
    requires IsGrouping(g, Contents(c))
    ensures exists r :: r in Enumerate(c, i, prefix) && |prefix| <= |r| && r[..|prefix|] == prefix
                        && multiset(r[|prefix|..]) == multiset(g)
    decreases Total(c), |c| - i, 1
  {
    var q := CursorGroup(c, i, g);
    BranchComplete(c, i, prefix, g, q);
    var r :| r in Branch(c, i, prefix, g[q].kind) && |prefix| <= |r| && r[..|prefix|] == prefix
             && multiset(r[|prefix|..]) == multiset(g);
    BranchIncluded(c, i, prefix, g[q].kind, r);
  }

  /** One of the four branches `rec_build` tries at entry `i`. */
  ghost predicate Guarded(c: Counts, i: nat, k: Kind)
    requires i < |c|
  {
    var t := c[i].0;
    (k == Pair(t) && c[i].1 >= 2) || (k == Triplet(t) && c[i].1 >= 3) || (k == Quad(t) && c[i].1 >= 4)
    || (SequenceFits(c, t) && k == SequenceFrom(t))
  }

  /** Some group of a grouping of what is left is tried at the cursor. */
  lemma CursorGroup(c: Counts, i: nat, g: seq<Mentsu>) returns (q: nat)
    requires Ordered(c) && i < |c| && ZeroBefore(c, i) && c[i].1 > 0
    requires IsGrouping(g, Contents(c))
    ensures q < |g| && Takeable(c, g[q].kind) && Guarded(c, i, g[q].kind)
  {
    var t := c[i].0;
    GetAt(c, i);
    ContentsAt(c, t);
    GroupTilesMember(g, t);
    q :| 0 <= q < |g| && t in Members(g[q].kind);
    var k := g[q].kind;
    GroupWithin(g, q);
    assert g[q] in g;
    if k.Sequence? {
      SequenceStartsAtCursor(c, i, k);
      TakeSequence(c, i);
    } else {
      SameAtCursor(c, i, k);
    }
  }

  /** A group's tiles are among the tiles of any list holding it. */
  lemma GroupWithin(g: seq<Mentsu>, q: nat)
    requires q < |g|
    ensures Members(g[q].kind) <= GroupTiles(g)
  {
    GroupTilesRemove(g, q);
  }

  /** A pair, triplet or quad of the cursor tile that the counts hold passes
      its guard. */
  lemma SameAtCursor(c: Counts, i: nat, k: Kind)
    requires Ordered(c) && i < |c| && !k.Sequence? && c[i].0 in Members(k) && Members(k) <= Contents(c)
    ensures Takeable(c, k) && Guarded(c, i, k)
  {
    var t := c[i].0;
    GetAt(c, i);
    ContentsAt(c, t);
    assert k.tile == t;
    assert Members(k)[t] == |Members(k)|;
    TakeSame(c, i, k);
  }

  /** At a nonzero entry the interpretations are the four branches'. */
  lemma EnumerateAt(c: Counts, i: nat, prefix: seq<Mentsu>)
    requires Ordered(c) && i < |c| && c[i].1 > 0
    ensures c[i].1 >= 2 ==> Takeable(c, Pair(c[i].0))
    ensures c[i].1 >= 3 ==> Takeable(c, Triplet(c[i].0))
    ensures c[i].1 >= 4 ==> Takeable(c, Quad(c[i].0))
    ensures Enumerate(c, i, prefix) ==
      Try(c, i, prefix, Pair(c[i].0), c[i].1 >= 2) + Try(c, i, prefix, Triplet(c[i].0), c[i].1 >= 3)
      + Try(c, i, prefix, Quad(c[i].0), c[i].1 >= 4) + SequenceBranch(c, i, prefix)
  {
    var t := c[i].0;
    TakeSame(c, i, Pair(t));
    TakeSame(c, i, Triplet(t));
    TakeSame(c, i, Quad(t));
  }

  /** A tried branch's interpretations are among those at the entry. */
  lemma BranchIncluded(c: Counts, i: nat, prefix: seq<Mentsu>, k: Kind, r: seq<Mentsu>)
    requires Ordered(c) && i < |c| && c[i].1 > 0 && Takeable(c, k) && Guarded(c, i, k)
    requires r in Branch(c, i, prefix, k)
    ensures r in Enumerate(c, i, prefix)
  {
    var t := c[i].0;
    EnumerateAt(c, i, prefix);
    if k == Pair(t) && c[i].1 >= 2 {
      assert r in Try(c, i, prefix, Pair(t), c[i].1 >= 2);
    } else if k == Triplet(t) && c[i].1 >= 3 {
      assert r in Try(c, i, prefix, Triplet(t), c[i].1 >= 3);
    } else if k == Quad(t) && c[i].1 >= 4 {
      assert r in Try(c, i, prefix, Quad(t), c[i].1 >= 4);
    } else {
      assert r in SequenceBranch(c, i, prefix);
    }
  }

  /** A well-formed sequence of remaining tiles that holds the least tile
      left starts at it, and the sequence branch's guard then holds. */
  lemma SequenceStartsAtCursor(c: Counts, i: nat, k: Kind)
    requires Ordered(c) && i < |c| && ZeroBefore(c, i)
    requires k.Sequence? && WellFormed(k) && Members(k) <= Contents(c) && c[i].0 in Members(k)
    ensures Add(c[i].0, 2).Some? && k == SequenceFrom(c[i].0) && SequenceFits(c, c[i].0)
  {
    var t, a, b, e := c[i].0, k.first, k.middle, k.last;
    AddProperties(a, 1);
    AddProperties(a, 2);
    MinimalKey(c, i, a);
    Tiles.LessIsStrictTotalOrder(t, a, b);
    Tiles.LessIsStrictTotalOrder(t, a, e);
    Tiles.LessIsStrictTotalOrder(a, t, a);
    assert a == t;
    PositiveIsKey(c, b);
    PositiveIsKey(c, e);
  }

  /** Taking a group of a grouping out of the counts leaves counts that the
      other groups use exactly. */
  lemma RestGrouping(c: Counts, i: nat, g: seq<Mentsu>, q: nat)
    requires Ordered(c) && ZeroBefore(c, i) && IsGrouping(g, Contents(c))
    requires q < |g| && Takeable(c, g[q].kind)
    ensures var d := Decremented(c, Consumed(g[q].kind));
            Ordered(d) && |d| == |c| && Total(d) < Total(c) && ZeroBefore(d, i)
            && IsGrouping(g[..q] + g[q + 1..], Contents(d))
  {
    var k := g[q].kind;
    var ts := Consumed(k);
    var d := Decremented(c, ts);
    assert Enough(c, ts) && forall t | t in ts :: Get(c, t).Some?;
    DecrementedContents(c, ts);
    ZeroBeforeDecremented(c, i, ts);
    var rest := g[..q] + g[q + 1..];
    assert Contents(d) == Contents(c) - Members(k);
    RestTiles(Contents(c), Contents(d), g, q);
    RestFresh(g, q);
    assert GroupTiles(rest) == Contents(d);
    assert forall m | m in rest :: Fresh(m) && WellFormed(m.kind);
  }

  /** What is left once a group's tiles are taken away is the other groups' tiles. */
  lemma RestTiles(all: multiset<Tile>, left: multiset<Tile>, g: seq<Mentsu>, q: nat)
    requires q < |g| && GroupTiles(g) == all && left == all - Members(g[q].kind)
    ensures GroupTiles(g[..q] + g[q + 1..]) == left
  {
    GroupTilesRemove(g, q);
  }

  /** The other groups of a list of fresh, well-formed groups are fresh and well formed. */
  lemma RestFresh(g: seq<Mentsu>, q: nat)
    requires q < |g| && forall m | m in g :: Fresh(m) && WellFormed(m.kind)
    ensures forall m | m in g[..q] + g[q + 1..] :: Fresh(m) && WellFormed(m.kind)
  {
    forall m | m in g[..q] + g[q + 1..]
      ensures Fresh(m) && WellFormed(m.kind)
    {
      assert m in g;
    }
  }

  /** A completion of `prefix + [m]` by the other groups of `g` is a
      completion of `prefix` by all of `g`. */
  lemma Reassemble(r: seq<Mentsu>, prefix: seq<Mentsu>, g: seq<Mentsu>, q: nat)
    requires q < |g| && |prefix| + 1 <= |r| && r[..|prefix| + 1] == prefix + [g[q]]
    requires multiset(r[|prefix| + 1..]) == multiset(g[..q] + g[q + 1..])
    ensures |prefix| <= |r| && r[..|prefix|] == prefix && multiset(r[|prefix|..]) == multiset(g)
  {
    SplitAfter(r, prefix, g[q]);
    GroupTilesRemove(g, q);
  }

  lemma {:induction false} BranchComplete(c: Counts, i: nat, prefix: seq<Mentsu>, g: seq<Mentsu>, q: nat)
    requires Ordered(c) && i < |c| && ZeroBefore(c, i) && IsGrouping(g, Contents(c))
    requires q < |g| && Takeable(c, g[q].kind)
    ensures exists r :: r in Branch(c, i, prefix, g[q].kind) && |prefix| <= |r| && r[..|prefix|] == prefix
                        && multiset(r[|prefix|..]) == multiset(g)
    decreases Total(c), |c| - i, 0
  {
    var k := g[q].kind;
    RestGrouping(c, i, g, q);
    var d := Decremented(c, Consumed(k));
    var rest := g[..q] + g[q + 1..];
    var p := With(prefix, New(k));
    EnumerateComplete(d, i, p, rest);
    var r :| r in Enumerate(d, i, p) && |p| <= |r| && r[..|p|] == p && multiset(r[|p|..]) == multiset(rest);
    assert g[q] in g;
    assert p == prefix + [g[q]];
    Reassemble(r, prefix, g, q);
    assert r in Branch(c, i, prefix, k);
  }
}
