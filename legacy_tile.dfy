/** The older `Tile` (src/tile.rs). Its fields, its derived equality and
    `can_sequence` and `terminal` are those of the newer tile; `simple` is
    only "not a terminal", so honor tiles count as simple. */
module LegacyTiles {
  import opened Suits
  import opened Tiles

  /** `simple`: not a terminal. */
  predicate Simple(t: Tile)
  {
    !Terminal(t)
  }

  /** The older `simple` is the newer `simple` together with the honors:
      every tile is either simple or terminal, never both. */
  lemma SimpleIncludesHonors(t: Tile)
    ensures Simple(t) <==> Tiles.Simple(t) || IsHonor(t)
    ensures IsHonor(t) ==> Simple(t) && !Tiles.Simple(t)
    ensures Simple(t) != Terminal(t)
  {
    ExactlyOneClass(t);
  }

  /** The white dragon is simple here and not simple in the newer tile. */
  lemma HonorIsSimple()
    ensures Simple(Tile(5, Honor)) && !Tiles.Simple(Tile(5, Honor))
  {
  }
}
