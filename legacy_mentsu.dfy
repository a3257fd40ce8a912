/** The older `Mentsu` and grouping (src/mentsu.rs). The struct, `Kind` and
    the predicates have the same shape as the newer ones, so the newer types
    and predicates serve both; what differs is the derived equality over
    every field, the `Display` codes of the waits, and `build_mentsu`, which
    keeps every grouping, winning or not. */
module LegacyMentsu {
  import opened Wrappers
  import opened Tiles
  import opened Kinds
  import opened Waits
  import opened Mentsus
  import opened Counts
  import opened Engine
  import opened EngineProofs

  /** The older `Display` of a wait. */
  function Code(w: WinWait): (s: string)
    ensures |s| == 3
  {
    match w
    case Ryanmen => "RMN"
    case Kanchan => "KCN"
    case Penchan => "PCN"
    case Tanki => "TNK"
    case Shanpon => "SHP"
  }

  /** Distinct waits display differently. */
  lemma CodeInjective(a: WinWait, b: WinWait)
    ensures Code(a) == Code(b) <==> a == b
  {
  }

  /** The derived equality compares every field, so it is finer than the
      newer kind-only equality: a group opened by a call is no longer equal
      to its closed self. */
  lemma DerivedEquality(a: Mentsu, k: Kind)
    ensures a == SetOpen(a, a.open) && a == SetWinWait(a, a.winWait)
    ensures New(k) != SetOpen(New(k), true) && Equivalent(New(k), SetOpen(New(k), true))
  {
  }

  /** `build_mentsu`: count the tiles, then `rec_build` from the first entry
      with no groups yet. No winning filter follows. */
  method BuildMentsu(tiles: seq<Tile>) returns (r: seq<seq<Mentsu>>)
    ensures r == Enumerate(Tally(tiles), 0, [])
  {
    var c := CountTiles(tiles);
    r := RecBuild(c, 0, []);
  }

  /** Every grouping returned uses exactly the tiles given, in well-formed
      fresh groups. */
  lemma BuildMentsuSound(tiles: seq<Tile>, g: seq<Mentsu>)
    requires g in Enumerate(Tally(tiles), 0, [])
    ensures IsGrouping(g, multiset(tiles))
  {
    EnumerateSound(Tally(tiles), 0, [], g);
    assert g[0..] == g;
  }

  /** Every grouping of the tiles into well-formed fresh groups is returned,
      up to order. */
  lemma BuildMentsuComplete(tiles: seq<Tile>, g: seq<Mentsu>)
    requires IsGrouping(g, multiset(tiles))
    ensures exists r :: r in Enumerate(Tally(tiles), 0, []) && multiset(r) == multiset(g)
  {
    EnumerateComplete(Tally(tiles), 0, [], g);
    var r :| r in Enumerate(Tally(tiles), 0, []) && multiset(r[0..]) == multiset(g);
    assert r[0..] == r;
  }

  /** Groupings that are no winning hand are kept: two equal tiles come back
      as one pair. */
  lemma Unfiltered(t: Tile)
    ensures [New(Pair(t))] in Enumerate(Tally([t, t]), 0, [])
    ensures !IsWinning([New(Pair(t))])
  {
    var g := [New(Pair(t))];
    assert GroupTiles(g) == multiset{t, t} + GroupTiles([]);
    assert multiset([t, t]) == multiset{t, t};
    BuildMentsuComplete([t, t], g);
    var r :| r in Enumerate(Tally([t, t]), 0, []) && multiset(r) == multiset(g);
    SingletonPermutation(r, g[0]);
  }

  /** The only permutation of a one-element list is the list itself. */
  lemma SingletonPermutation(r: seq<Mentsu>, m: Mentsu)
    requires multiset(r) == multiset{m}
    ensures r == [m]
  {
    assert |r| == |multiset(r)| == 1;
    assert r[0] in multiset(r);
  }
}
