/** A tile: a value and a suit (src/tile/mod.rs). */
module Tiles {
  import opened Wrappers
  import opened Suits

  /** `value` is a `u32` in the source; values stay far below 2^32 here. */
  datatype Tile = Tile(value: nat, suit: Suit)

  /** How the winning tile was obtained: self-drawn or called from a discard. */
  datatype WinMethod = Tsumo | Ron

  /** `partial_cmp`: value first, then suit in declaration order. */
  predicate Less(a: Tile, b: Tile)
  {
    a.value < b.value || (a.value == b.value && Rank(a.suit) < Rank(b.suit))
  }

  /** The custom ordering is a strict total order, and it reports `Equal`
      exactly when the custom `==` (same value, same suit) holds. */
  lemma LessIsStrictTotalOrder(a: Tile, b: Tile, c: Tile)
    ensures !Less(a, a)
    ensures Less(a, b) ==> !Less(b, a)
    ensures Less(a, b) && Less(b, c) ==> Less(a, c)
    ensures !Less(a, b) && !Less(b, a) <==> a.value == b.value && a.suit == b.suit
    ensures a != b ==> Less(a, b) || Less(b, a)
  {
    RankInjective(a.suit, b.suit);
  }

  predicate IsHonor(t: Tile)
  {
    t.suit == Honor
  }

  predicate Terminal(t: Tile)
  {
    t.suit != Honor && (t.value == 1 || t.value == 9)
  }

  predicate Simple(t: Tile)
  {
    !(Terminal(t) || IsHonor(t))
  }

  /** Every tile is exactly one of simple, terminal and honor. */
  lemma ExactlyOneClass(t: Tile)
    ensures Simple(t) ==> !Terminal(t) && !IsHonor(t)
    ensures Terminal(t) ==> !Simple(t) && !IsHonor(t)
    ensures IsHonor(t) ==> !Simple(t) && !Terminal(t)
    ensures Simple(t) || Terminal(t) || IsHonor(t)
  {
  }

  /** `u32::abs_diff`. */
  function AbsDiff(x: nat, y: nat): nat
  {
    if x < y then y - x else x - y
  }

  /** True if both tiles can appear in the same sequence. */
  predicate CanSequence(a: Tile, b: Tile)
  {
    a.suit != Honor && a.suit == b.suit && a.value != b.value && AbsDiff(a.value, b.value) <= 2
  }

  /** `can_sequence` is symmetric and irreflexive, and it holds exactly for
      two distinct tiles of one non-honor suit whose values are at most 2 apart. */
  lemma CanSequenceSymmetric(a: Tile, b: Tile)
    ensures CanSequence(a, b) == CanSequence(b, a)
    ensures !CanSequence(a, a)
    ensures CanSequence(a, b) <==>
      !IsHonor(a) && a.suit == b.suit && (b.value == a.value + 1 || b.value == a.value + 2 ||
                                           a.value == b.value + 1 || a.value == b.value + 2)
  {
  }

  /** `Tile::add`: the tile `r` values higher in the same suit, or `None`
      past 9. There is no honor check. */
  function Add(t: Tile, r: nat): (res: Option<Tile>)
    ensures res.None? <==> t.value + r > 9
  {
    if t.value + r > 9 then None else Some(Tile(t.value + r, t.suit))
  }

  /** What `add` returns: the suit is kept, the values add up, and a positive
      step moves strictly up the tile order; two unit steps are one step of 2. */
  lemma AddProperties(t: Tile, r: nat)
    ensures Add(t, r).Some? ==> Add(t, r).value.suit == t.suit && Add(t, r).value.value == t.value + r
    ensures Add(t, r).Some? && r > 0 ==> Less(t, Add(t, r).value)
    ensures Add(t, r).Some? && r > 0 && !IsHonor(t) && r <= 2 ==> CanSequence(t, Add(t, r).value)
    ensures Add(t, 2).Some? ==> Add(t, 1).Some? && Add(Add(t, 1).value, 1) == Add(t, 2)
  {
  }
}
