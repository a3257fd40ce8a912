/** The result of `build` in terms of the winning ways of grouping the
    tiles, and the shape of every hand it returns. */
module BuildProofs {
  import opened Wrappers
  import opened Tiles
  import opened Kinds
  import opened Waits
  import opened Mentsus
  import opened Counts
  import opened Counting
  import opened Engine
  import opened EngineProofs
  import Sorting

  /** A winning way `h` of grouping `tiles`, whose group `q` holds `w`. */
  ghost predicate WinningReading(h: seq<Mentsu>, q: nat, tiles: seq<Tile>, w: Tile)
  {
    IsGrouping(h, multiset(tiles)) && IsWinning(h) && q < |h| && Contains(h[q], w)
  }

  predicate HasWait(m: Mentsu)
  {
    m.winWait.Some?
  }

  // --------------------------------------------------------- wait rules

  /** The wait `basic_to_open` assigns: tanki for a pair, shanpon for a
      triplet, kanchan exactly when the winning tile is the middle of a
      sequence, penchan exactly for 1-2-3 completed by the 3 and 7-8-9
      completed by the 7 of a numbered suit, ryanmen for the other sequence
      ends, and nothing for a quad. */
  lemma WaitClassification(k: Kind, w: Tile)
    requires WellFormed(k) && w in Members(k)
    ensures k.Pair? ==> WaitFor(k, w) == Some(Tanki)
    ensures k.Triplet? ==> WaitFor(k, w) == Some(Shanpon)
    ensures k.Quad? <==> WaitFor(k, w).None?
    ensures k.Sequence? ==> (WaitFor(k, w) == Some(Kanchan) <==> w == k.middle)
    ensures k.Sequence? ==>
      (WaitFor(k, w) == Some(Penchan) <==>
        !IsHonor(k.first) && ((k.first.value == 1 && w == k.last) || (k.first.value == 7 && w == k.first)))
    ensures k.Sequence? ==>
      (WaitFor(k, w) == Some(Ryanmen) <==>
        w != k.middle && (IsHonor(k.first) || (w == k.first && k.first.value != 7) || (w == k.last && k.first.value != 1)))
  {
    if k.Sequence? {
      AddProperties(k.first, 1);
      AddProperties(k.first, 2);
    }
  }

  // ----------------------------------------------------- variant membership

  lemma {:induction false} VariantsOfMember(h: seq<Mentsu>, n: nat, w: Tile, how: WinMethod, x: seq<Mentsu>)
    requires n <= |h|
    ensures x in VariantsOf(h, n, w, how) <==>
      exists j | 0 <= j < n :: Contains(h[j], w) && x == SortHand(Variant(h, j, w, how))
  {
    if n > 0 {
      VariantsOfMember(h, n - 1, w, how, x);
      var last := if Contains(h[n - 1], w) then {SortHand(Variant(h, n - 1, w, how))} else {};
      assert VariantsOf(h, n, w, how) == VariantsOf(h, n - 1, w, how) + last;
      if x in last {
        assert Contains(h[n - 1], w) && x == SortHand(Variant(h, n - 1, w, how));
      }
      if exists j | 0 <= j < n :: Contains(h[j], w) && x == SortHand(Variant(h, j, w, how)) {
        var j :| 0 <= j < n && Contains(h[j], w) && x == SortHand(Variant(h, j, w, how));
        if j == n - 1 {
          assert x in last;
        }
      }
    }
  }

  lemma {:induction false} AllVariantsMember(hs: seq<seq<Mentsu>>, p: nat, w: Tile, how: WinMethod, x: seq<Mentsu>)
    requires p <= |hs|
    ensures x in AllVariants(hs, p, w, how) <==>
      exists a, j | 0 <= a < p && 0 <= j < |hs[a]| :: Contains(hs[a][j], w) && x == SortHand(Variant(hs[a], j, w, how))
  {
    if p > 0 {
      AllVariantsMember(hs, p - 1, w, how, x);
      var h := hs[p - 1];
      VariantsOfMember(h, |h|, w, how, x);
      assert AllVariants(hs, p, w, how) == AllVariants(hs, p - 1, w, how) + VariantsOf(h, |h|, w, how);
      if x in VariantsOf(h, |h|, w, how) {
        var j :| 0 <= j < |h| && Contains(h[j], w) && x == SortHand(Variant(h, j, w, how));
        assert Contains(hs[p - 1][j], w) && x == SortHand(Variant(hs[p - 1], j, w, how));
      }
      if exists a, j | 0 <= a < p && 0 <= j < |hs[a]| :: Contains(hs[a][j], w) && x == SortHand(Variant(hs[a], j, w, how)) {
        var a, j :| 0 <= a < p && 0 <= j < |hs[a]| && Contains(hs[a][j], w) && x == SortHand(Variant(hs[a], j, w, how));
        if a == p - 1 {
          assert x in VariantsOf(h, |h|, w, how);
        } else {
          assert 0 <= a < p - 1;
        }
      }
      if x in AllVariants(hs, p - 1, w, how) {
        var a, j :| 0 <= a < p - 1 && 0 <= j < |hs[a]| && Contains(hs[a][j], w) && x == SortHand(Variant(hs[a], j, w, how));
        assert 0 <= a < p;
      }
    }
  }

  /** Annotating a group of one of two orderings of the same groups gives
      the same groups as annotating that group in the other. */
  lemma VariantPermutation(r: seq<Mentsu>, g: seq<Mentsu>, q: nat, w: Tile, how: WinMethod) returns (j: nat)
    requires multiset(r) == multiset(g) && q < |g|
    ensures j < |r| && r[j] == g[q]
    ensures multiset(Variant(r, j, w, how)) == multiset(Variant(g, q, w, how))
  {
    assert g[q] in multiset(r);
    j :| 0 <= j < |r| && r[j] == g[q];
  }

  // ---------------------------------------------------------------- build

  /** Every hand `build` returns is a winning way of grouping the tiles,
      annotated at a group holding the winning tile, and sorted. */
  lemma BuildSound(tiles: seq<Tile>, w: Tile, how: WinMethod, x: seq<Mentsu>)
    requires BuildSpec(tiles, w, how).Success? && x in BuildSpec(tiles, w, how).value
    ensures exists h: seq<Mentsu>, q: nat :: WinningReading(h, q, tiles, w) && !h[q].kind.Quad? && x == SortHand(Variant(h, q, w, how))
  {
    var c := Tally(tiles);
    var e := Enumerate(c, 0, []);
    var hs := Winning(e);
    AllVariantsMember(hs, |hs|, w, how, x);
    var a, j :| 0 <= a < |hs| && 0 <= j < |hs[a]| && Contains(hs[a][j], w) && x == SortHand(Variant(hs[a], j, w, how));
    assert hs[a] in hs;
    EnumerateSound(c, 0, [], hs[a]);
    assert hs[a][0..] == hs[a];
    assert !QuadHit(hs[a], |hs[a]|, w);
    assert WinningReading(hs[a], j, tiles, w);
  }

  /** Every winning way of grouping the tiles with a group holding the
      winning tile is returned, annotated at that group; a quad holding it
      makes `build` fail. */
  lemma BuildComplete(tiles: seq<Tile>, w: Tile, how: WinMethod, g: seq<Mentsu>, q: nat)
    requires WinningReading(g, q, tiles, w)
    ensures g[q].kind.Quad? ==> BuildSpec(tiles, w, how) == Failure(QuadWait)
    ensures BuildSpec(tiles, w, how).Success? ==> SortHand(Variant(g, q, w, how)) in BuildSpec(tiles, w, how).value
  {
    var hs := Winning(Enumerate(Tally(tiles), 0, []));
    var a := FoundWinning(tiles, w, g, q);
    var j := VariantPermutation(hs[a], g, q, w, how);
    if g[q].kind.Quad? {
      assert QuadHit(hs[a], |hs[a]|, w);
    }
    if BuildSpec(tiles, w, how).Success? {
      MentsuOrder();
      Sorting.SortCanonical(Variant(hs[a], j, w, how), Variant(g, q, w, how), Mentsus.Less);
      AllVariantsMember(hs, |hs|, w, how, SortHand(Variant(g, q, w, how)));
    }
  }

  /** A winning reading is, up to order, one of the winning groupings the
      enumeration keeps. */
  lemma FoundWinning(tiles: seq<Tile>, w: Tile, g: seq<Mentsu>, q: nat) returns (a: nat)
    requires WinningReading(g, q, tiles, w)
    ensures var hs := Winning(Enumerate(Tally(tiles), 0, []));
      a < |hs| && multiset(hs[a]) == multiset(g)
  {
    var c := Tally(tiles);
    var e := Enumerate(c, 0, []);
    var hs := Winning(e);
    EnumerateComplete(c, 0, [], g);
    var r :| r in e && r[..0] == [] && multiset(r[0..]) == multiset(g);
    assert r[0..] == r;
    CountIfPermutation(r, g, IsBody);
    CountIfPermutation(r, g, IsPair);
    assert r in hs;
    a :| 0 <= a < |hs| && hs[a] == r;
  }

  /** `build` stops exactly when some winning way of grouping the tiles has
      a quad holding the winning tile. */
  lemma BuildFailsOnQuadWait(tiles: seq<Tile>, w: Tile, how: WinMethod)
    ensures BuildSpec(tiles, w, how).Failure? <==>
      exists h: seq<Mentsu>, q: nat :: WinningReading(h, q, tiles, w) && h[q].kind.Quad?
  {
    var c := Tally(tiles);
    var e := Enumerate(c, 0, []);
    var hs := Winning(e);
    if BuildSpec(tiles, w, how).Failure? {
      var a :| 0 <= a < |hs| && QuadHit(hs[a], |hs[a]|, w);
      var j :| 0 <= j < |hs[a]| && Contains(hs[a][j], w) && hs[a][j].kind.Quad?;
      assert hs[a] in hs;
      EnumerateSound(c, 0, [], hs[a]);
      assert hs[a][0..] == hs[a];
      assert WinningReading(hs[a], j, tiles, w);
    }
    if exists h: seq<Mentsu>, q: nat :: WinningReading(h, q, tiles, w) && h[q].kind.Quad? {
      var h: seq<Mentsu>, q: nat :| WinningReading(h, q, tiles, w) && h[q].kind.Quad?;
      BuildComplete(tiles, w, how, h, q);
    }
  }

  /** A winning hand has four bodies and a pair: five groups. */
  lemma WinningHandSize(h: seq<Mentsu>)
    requires IsWinning(h)
    ensures |h| == 5
  {
    CountIfComplement(h, IsBody, IsPair);
  }

  /** Annotating group `q` of fresh groups leaves one group with a wait,
      holding `w` and open exactly on a ron, and keeps every shape. */
  lemma VariantShape(h: seq<Mentsu>, q: nat, w: Tile, how: WinMethod)
    requires q < |h| && (forall m | m in h :: Fresh(m)) && Contains(h[q], w) && !h[q].kind.Quad?
    ensures CountIf(Variant(h, q, w, how), HasWait) == 1
    ensures CountIf(Variant(h, q, w, how), IsBody) == CountIf(h, IsBody)
    ensures CountIf(Variant(h, q, w, how), IsPair) == CountIf(h, IsPair)
    ensures forall m | m in Variant(h, q, w, how) ::
      if HasWait(m) then Contains(m, w) && m.open == (how == Ron) && m.winWait == WaitFor(m.kind, w)
      else !m.open
  {
    var v := Variant(h, q, w, how);
    var u := Annotate(h[q], w, how);
    assert h[q] in h;
    assert v[q] == u && u.kind == h[q].kind;
    forall m | m in v
      ensures m == u || (m in h && Fresh(m))
    {
      var k :| 0 <= k < |v| && v[k] == m;
      if k != q {
        assert m == h[k] && h[k] in h;
      }
    }
    forall i | 0 <= i < |h|
      ensures !HasWait(h[i])
    {
      assert h[i] in h;
    }
    CountIfPositive(h, HasWait);
    assert HasWait(u);
    CountIfUpdate(h, q, u, HasWait);
    CountIfUpdate(h, q, u, IsBody);
    CountIfUpdate(h, q, u, IsPair);
  }

  /** Each hand `build` returns is sorted and winning, and exactly one of
      its groups carries a wait: a group holding the winning tile, open
      exactly on a ron, with the wait its shape calls for; every other group
      is closed and without a wait. */
  lemma BuildOutputShape(tiles: seq<Tile>, w: Tile, how: WinMethod, x: seq<Mentsu>)
    requires BuildSpec(tiles, w, how).Success? && x in BuildSpec(tiles, w, how).value
    ensures Sorting.Sorted(x, Mentsus.Less)
    ensures IsWinning(x) && |x| == 5
    ensures CountIf(x, HasWait) == 1
    ensures forall m | m in x && HasWait(m) :: Contains(m, w) && m.open == (how == Ron) && m.winWait == WaitFor(m.kind, w)
    ensures forall m | m in x && !HasWait(m) :: !m.open
  {
    BuildSound(tiles, w, how, x);
    var h: seq<Mentsu>, q: nat :| WinningReading(h, q, tiles, w) && !h[q].kind.Quad? && x == SortHand(Variant(h, q, w, how));
    var v := Variant(h, q, w, how);
    SortHandCorrect(v);
    VariantShape(h, q, w, how);
    forall m | m in x
      ensures m in v
    {
      assert m in multiset(x);
    }
    CountIfPermutation(x, v, HasWait);
    CountIfPermutation(x, v, IsBody);
    CountIfPermutation(x, v, IsPair);
    WinningHandSize(x);
  }
}
