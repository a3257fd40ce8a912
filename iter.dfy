/** Iterating over the tiles of a group (src/mentsu/iter.rs), and
    `get_tiles`, which concatenates those iterations (src/mentsu/mod.rs). */
module MentsuIter {
  import opened Wrappers
  import opened Tiles
  import opened Kinds
  import opened Mentsus

  /** The vector `Iter::new` builds: three copies of the tile for a pair,
      triplet or quad (so three, not four, for a quad), and `t0, t1, t2` in
      that order for a sequence. */
  function IterTiles(k: Kind): (ts: seq<Tile>)
    ensures |ts| == 3
    ensures k.Sequence? ==> ts == [k.first, k.middle, k.last]
    ensures !k.Sequence? ==> forall j | 0 <= j < 3 :: ts[j] == k.tile
  {
    match k
    case Sequence(t0, t1, t2) => [t0, t1, t2]
    case _ => [k.tile, k.tile, k.tile]
  }

  /** The iterator yields exactly the group's tiles for a triplet or a
      sequence; it yields one tile too many for a pair and one too few for a quad. */
  lemma IterTilesVersusMembers(k: Kind)
    ensures multiset(IterTiles(k)) == Members(k) <==> k.Triplet? || k.Sequence?
    ensures k.Pair? ==> |Members(k)| == 2
    ensures k.Quad? ==> |Members(k)| == 4
  {
    if k.Pair? {
      assert multiset(IterTiles(k))[k.tile] == 3;
    } else if k.Quad? {
      assert multiset(IterTiles(k))[k.tile] == 3;
    } else if k.Triplet? {
      assert IterTiles(k) == [k.tile, k.tile, k.tile];
    }
  }

  class Iter {
    var tiles: seq<Tile>
    var nextIdx: nat

    ghost predicate Valid()
      reads this
    {
      nextIdx <= |tiles|
    }

    /** What is left to yield. */
    ghost function Remaining(): seq<Tile>
      reads this
      requires Valid()
    {
      tiles[nextIdx..]
    }

    /** `Iter::new`. */
    constructor (m: Mentsu)
      ensures Valid() && tiles == IterTiles(m.kind) && nextIdx == 0
    {
      tiles := IterTiles(m.kind);
      nextIdx := 0;
    }

    /** `Iterator::next`: yields `tiles[next_idx]` and advances by one; once
        exhausted it yields `None` and stays where it is. */
    method Next() returns (t: Option<Tile>)
      requires Valid()
      modifies this
      ensures Valid() && tiles == old(tiles)
      ensures old(nextIdx) < |tiles| ==> t == Some(tiles[old(nextIdx)]) && nextIdx == old(nextIdx) + 1
      ensures old(nextIdx) >= |tiles| ==> t == None && nextIdx == old(nextIdx)
      ensures t.Some? ==> Remaining() == old(Remaining())[1..] && t.value == old(Remaining())[0]
    {
      if nextIdx < |tiles| {
        t := Some(tiles[nextIdx]);
        nextIdx := nextIdx + 1;
      } else {
        t := None;
      }
    }

    /** `collect()`: drains the iterator into a vector. */
    method Collect() returns (ts: seq<Tile>)
      requires Valid()
      modifies this
      ensures Valid() && tiles == old(tiles) && nextIdx == |tiles|
      ensures ts == old(Remaining())
    {
      ts := [];
      var t := Next();
      while t.Some?
        invariant Valid() && tiles == old(tiles)
        invariant t.Some? ==> ts + [t.value] + Remaining() == old(Remaining())
        invariant t.None? ==> ts == old(Remaining()) && nextIdx == |tiles|
        decreases |tiles| - nextIdx, t.Some?
      {
        ts := ts + [t.value];
        t := Next();
      }
    }
  }

  /** `get_tiles`: each group's iterator output, concatenated. */
  function GetTiles(ms: seq<Mentsu>): (ts: seq<Tile>)
    ensures |ts| == 3 * |ms|
  {
    if ms == [] then [] else GetTiles(ms[..|ms| - 1]) + IterTiles(ms[|ms| - 1].kind)
  }

  /** Tile `3 * i + j` of `get_tiles` is tile `j` of group `i`. */
  lemma {:induction false} GetTilesAt(ms: seq<Mentsu>, i: nat, j: nat)
    requires i < |ms| && j < 3
    ensures GetTiles(ms)[3 * i + j] == IterTiles(ms[i].kind)[j]
  {
    var n := |ms| - 1;
    if i < n {
      GetTilesAt(ms[..n], i, j);
      assert ms[..n][i] == ms[i];
    }
  }
}
