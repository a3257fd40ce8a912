/** The yakuman table (src/yaku/yakuman.rs). */
module Yakuman {
  import opened Tiles
  import opened Kinds
  import opened Mentsus
  import opened Counting
  import opened YakuTable
  import opened RegularYaku

  /** All honors: every group is `honor()`. */
  predicate Tsuuiisou(h: seq<Mentsu>)
  {
    forall i | 0 <= i < |h| :: HonorGroup(h[i])
  }

  /** All terminals: every group is `entirely_terminal()`. */
  predicate Chinroutou(h: seq<Mentsu>)
  {
    forall i | 0 <= i < |h| :: EntirelyTerminal(h[i])
  }

  /** Four concealed triplets or quads. */
  predicate Suuankou(h: seq<Mentsu>)
  {
    CountIf(h, ClosedTriplet) >= 4
  }

  /** A sequence breaks both all-honors and all-terminals, and an honor
      group breaks all-terminals. */
  lemma NoSequences(h: seq<Mentsu>)
    ensures Tsuuiisou(h) || Chinroutou(h) ==> Toitoi(h)
    ensures Chinroutou(h) ==> forall i | 0 <= i < |h| :: !HonorGroup(h[i])
  {
    forall i | 0 <= i < |h|
      ensures !(IsSequence(h[i]) && HonorGroup(h[i]))
      ensures !(IsSequence(h[i]) && EntirelyTerminal(h[i]))
      ensures !(EntirelyTerminal(h[i]) && HonorGroup(h[i]))
    {
      KindPredicates(h[i]);
    }
  }

  lemma SuuankouImpliesSanankou(h: seq<Mentsu>)
    ensures Suuankou(h) ==> Sanankou(h)
  {
  }

  /** All terminals is also every group holding a terminal, and no sequence;
      all honors is a special case of Chanta. */
  lemma ChinroutouImpliesJunchanAndToitoi(h: seq<Mentsu>)
    ensures Chinroutou(h) ==> Junchan(h) && Toitoi(h)
    ensures Tsuuiisou(h) ==> Chanta(h) && Toitoi(h)
  {
    forall i | 0 <= i < |h|
      ensures EntirelyTerminal(h[i]) ==> ContainsTerminal(h[i]) && !IsSequence(h[i])
      ensures HonorGroup(h[i]) ==> !IsSequence(h[i])
    {
      KindPredicates(h[i]);
    }
  }

  /** No group is both all honors and all terminals, so the two yakuman
      hold together only for the empty list. */
  lemma TsuuiisouAndChinroutou(h: seq<Mentsu>)
    ensures Tsuuiisou(h) && Chinroutou(h) <==> h == []
  {
    if h != [] {
      KindPredicates(h[0]);
    }
  }

  /** `YAKUMAN` in its order. */
  function Table(): seq<Yaku>
  {
    [ Yaku("Tsuuiisou", "All honors", 99, Full,
        (h: seq<Mentsu>, s: PlayerState) => Tsuuiisou(h)),
      Yaku("Chinroutou", "All terminals", 99, Full,
        (h: seq<Mentsu>, s: PlayerState) => Chinroutou(h)),
      Yaku("Suuankou", "Four concealed triplets", 99, Illegal,
        (h: seq<Mentsu>, s: PlayerState) => Suuankou(h))
    ]
  }

  /** Every yakuman entry: its name, description, han and open scoring, and
      the predicate `valid_for` applies. */
  lemma TableMeaning(h: seq<Mentsu>, s: PlayerState)
    ensures |Table()| == 3
    ensures Heading(Table()[0]) == ("Tsuuiisou", "All honors", 99, Full)
    ensures ValidFor(Table()[0], h, s) == Tsuuiisou(h)
    ensures Heading(Table()[1]) == ("Chinroutou", "All terminals", 99, Full)
    ensures ValidFor(Table()[1], h, s) == Chinroutou(h)
    ensures Heading(Table()[2]) == ("Suuankou", "Four concealed triplets", 99, Illegal)
    ensures ValidFor(Table()[2], h, s) == Suuankou(h)
  {
  }
}
