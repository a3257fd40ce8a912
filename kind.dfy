/** The shape of a group (src/mentsu/kind.rs). */
module Kinds {
  import opened Wrappers
  import opened Suits
  import opened Tiles

  /** Declaration order matters: the derived `Ord` compares variants in this
      order first. A sequence stores its three tiles explicitly. */
  datatype Kind =
    | Triplet(tile: Tile)
    | Quad(tile: Tile)
    | Sequence(first: Tile, middle: Tile, last: Tile)
    | Pair(tile: Tile)

  function Rank(k: Kind): nat
  {
    match k
    case Triplet(_) => 0
    case Quad(_) => 1
    case Sequence(_, _, _) => 2
    case Pair(_) => 3
  }

  /** The derived `Ord`: variant first, then the contained tiles lexicographically. */
  predicate Less(a: Kind, b: Kind)
  {
    match (a, b)
    case (Triplet(x), Triplet(y)) => Tiles.Less(x, y)
    case (Quad(x), Quad(y)) => Tiles.Less(x, y)
    case (Pair(x), Pair(y)) => Tiles.Less(x, y)
    case (Sequence(x0, x1, x2), Sequence(y0, y1, y2)) =>
      Tiles.Less(x0, y0) || (x0 == y0 && (Tiles.Less(x1, y1) || (x1 == y1 && Tiles.Less(x2, y2))))
    case _ => Rank(a) < Rank(b)
  }

  /** Variants come in declaration order: Triplet < Quad < Sequence < Pair. */
  lemma LessByVariant(a: Kind, b: Kind)
    ensures Rank(a) < Rank(b) ==> Less(a, b)
    ensures a.Triplet? && !b.Triplet? ==> Less(a, b)
    ensures a.Quad? && (b.Sequence? || b.Pair?) ==> Less(a, b)
    ensures a.Sequence? && b.Pair? ==> Less(a, b)
  {
  }

  /** The derived order on kinds is a strict total order. */
  lemma LessIsStrictTotalOrder(a: Kind, b: Kind, c: Kind)
    ensures !Less(a, a)
    ensures Less(a, b) ==> !Less(b, a)
    ensures Less(a, b) && Less(b, c) ==> Less(a, c)
    ensures a != b ==> Less(a, b) || Less(b, a)
  {
    match (a, b, c)
    case (Sequence(a0, a1, a2), Sequence(b0, b1, b2), Sequence(c0, c1, c2)) =>
      Tiles.LessIsStrictTotalOrder(a0, b0, c0);
      Tiles.LessIsStrictTotalOrder(a1, b1, c1);
      Tiles.LessIsStrictTotalOrder(a2, b2, c2);
    case (Sequence(a0, a1, a2), Sequence(b0, b1, b2), _) =>
      Tiles.LessIsStrictTotalOrder(a0, b0, a0);
      Tiles.LessIsStrictTotalOrder(a1, b1, a1);
      Tiles.LessIsStrictTotalOrder(a2, b2, a2);
    case (Sequence(a0, _, _), _, _) =>
    case _ =>
      if !a.Sequence? && !b.Sequence? && !c.Sequence? {
        Tiles.LessIsStrictTotalOrder(a.tile, b.tile, c.tile);
      } else if !a.Sequence? && !b.Sequence? {
        Tiles.LessIsStrictTotalOrder(a.tile, b.tile, a.tile);
      }
  }

  /** The tiles a group is made of, as a multiset: what the enumeration consumes. */
  function Members(k: Kind): multiset<Tile>
  {
    match k
    case Pair(t) => multiset{t, t}
    case Triplet(t) => multiset{t, t, t}
    case Quad(t) => multiset{t, t, t, t}
    case Sequence(t0, t1, t2) => multiset{t0, t1, t2}
  }

  /** The shapes the enumeration builds: a sequence is `t, t.add(1), t.add(2)`. */
  predicate WellFormed(k: Kind)
  {
    match k
    case Sequence(t0, t1, t2) => Add(t0, 1) == Some(t1) && Add(t0, 2) == Some(t2)
    case _ => true
  }

  /** The `Display` prefix of each variant. */
  function Tag(k: Kind): string
  {
    match k
    case Triplet(_) => "Tr("
    case Quad(_) => "Qd("
    case Sequence(_, _, _) => "Sq("
    case Pair(_) => "Pr("
  }

  /** What `Display` writes between the parentheses. */
  function Inner(k: Kind, text: Tile -> string): string
  {
    match k
    case Sequence(t0, t1, t2) => text(t0) + "," + text(t1) + "," + text(t2)
    case _ => text(k.tile)
  }

  /** `Display` for a kind, given how a tile is displayed (the tile's
      `Display` depends on the suit's, which is not part of this model):
      `Tr(t)`, `Qd(t)`, `Sq(t0,t1,t2)` or `Pr(t)`. */
  function Show(k: Kind, text: Tile -> string): string
  {
    Tag(k) + Inner(k, text) + ")"
  }

  /** Each variant's display starts with its own tag and ends with `)`, so
      kinds of different variants never display alike. */
  lemma ShowStartsWithTag(a: Kind, b: Kind, text: Tile -> string)
    ensures |Show(a, text)| > 3 && Show(a, text)[..3] == Tag(a) && Show(a, text)[|Show(a, text)| - 1] == ')'
    ensures Rank(a) != Rank(b) ==> Show(a, text) != Show(b, text)
  {
    TagPrefix(a, text);
    TagPrefix(b, text);
    if Rank(a) != Rank(b) {
      assert Tag(a) != Tag(b) by {
        assert Tag(a)[0] != Tag(b)[0];
      }
    }
  }

  lemma TagPrefix(k: Kind, text: Tile -> string)
    ensures |Show(k, text)| > 3 && Show(k, text)[..3] == Tag(k) && Show(k, text)[|Show(k, text)| - 1] == ')'
  {
    var s := Show(k, text);
    assert s == Tag(k) + (Inner(k, text) + ")");
    assert |Tag(k)| == 3;
  }
}
