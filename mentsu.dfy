/** A group of a hand with its annotations (src/mentsu/mod.rs). */
module Mentsus {
  import opened Wrappers
  import opened Suits
  import opened Tiles
  import opened Kinds
  import opened Waits

  /** `Mentsu` is `Copy`: the setters update a value, so it is a datatype. */
  datatype Mentsu = Mentsu(kind: Kind, open: bool, winWait: Option<WinWait>)

  /** `Mentsu::new`: a closed group with no wait. */
  function New(kind: Kind): (m: Mentsu)
    ensures m.kind == kind && !m.open && m.winWait == None
  {
    Mentsu(kind, false, None)
  }

  /** The custom `PartialEq`: compares `kind` only. (Dafny's `==` on `Mentsu`
      compares every field, which is what the custom `Hash` covers.) */
  predicate Equivalent(a: Mentsu, b: Mentsu)
  {
    a.kind == b.kind
  }

  /** `==` ignores the annotations while the full value (and hence the hash)
      does not: two groups differing only in `open` are `==` yet distinct. */
  lemma EquivalenceIgnoresAnnotations(a: Mentsu, b: Mentsu)
    ensures a.kind == b.kind ==> Equivalent(a, b)
    ensures Equivalent(a, SetOpen(a, !a.open)) && a != SetOpen(a, !a.open)
    ensures Equivalent(a, b) <==> Equivalent(b, a)
  {
  }

  predicate Contains(m: Mentsu, t: Tile)
  {
    match m.kind
    case Triplet(h) => t == h
    case Quad(h) => t == h
    case Pair(h) => t == h
    case Sequence(h0, h1, h2) => t == h0 || t == h1 || t == h2
  }

  /** `contains` agrees with the group's tile multiset: a pair, triplet or quad
      contains only its own tile, a sequence exactly its three tiles. */
  lemma ContainsIsMembership(m: Mentsu, t: Tile)
    ensures Contains(m, t) <==> t in Members(m.kind)
    ensures !m.kind.Sequence? ==> (Contains(m, t) <==> t == m.kind.tile)
  {
  }

  /** `set_win_wait`: only `win_wait` changes. */
  function SetWinWait(m: Mentsu, val: Option<WinWait>): (r: Mentsu)
    ensures r.winWait == val && r.kind == m.kind && r.open == m.open
  {
    m.(winWait := val)
  }

  /** `set_open`: only `open` changes. */
  function SetOpen(m: Mentsu, val: bool): (r: Mentsu)
    ensures r.open == val && r.kind == m.kind && r.winWait == m.winWait
  {
    m.(open := val)
  }

  predicate ContainsTerminal(m: Mentsu)
  {
    match m.kind
    case Sequence(t0, t1, t2) => Terminal(t0) || Terminal(t1) || Terminal(t2)
    case _ => Terminal(m.kind.tile)
  }

  predicate Closed(m: Mentsu)
  {
    !m.open
  }

  predicate EntirelyTerminal(m: Mentsu)
  {
    match m.kind
    case Sequence(_, _, _) => false
    case _ => Terminal(m.kind.tile)
  }

  /** `suit()`: the suit of the first tile. */
  function SuitOf(m: Mentsu): Suit
  {
    match m.kind
    case Sequence(t, _, _) => t.suit
    case _ => m.kind.tile.suit
  }

  /** `honor()` on a group: a pair, triplet or quad of an honor tile. */
  predicate HonorGroup(m: Mentsu)
  {
    match m.kind
    case Sequence(_, _, _) => false
    case _ => IsHonor(m.kind.tile)
  }

  predicate IsPair(m: Mentsu)
  {
    m.kind.Pair?
  }

  predicate IsQuad(m: Mentsu)
  {
    m.kind.Quad?
  }

  predicate IsSequence(m: Mentsu)
  {
    m.kind.Sequence?
  }

  /** `triplet()` also holds for a quad. */
  predicate IsTriplet(m: Mentsu)
  {
    m.kind.Triplet? || m.kind.Quad?
  }

  /** How the kind predicates relate: `triplet()` covers exactly Triplet and
      Quad, every group is exactly one of pair, sequence or triplet-or-quad,
      and a sequence is never `honor()` nor `entirely_terminal()`. */
  lemma KindPredicates(m: Mentsu)
    ensures IsTriplet(m) <==> !IsPair(m) && !IsSequence(m)
    ensures IsPair(m) ==> !IsQuad(m) && !IsSequence(m)
    ensures IsQuad(m) ==> IsTriplet(m) && !IsSequence(m)
    ensures IsSequence(m) ==> !HonorGroup(m) && !EntirelyTerminal(m)
    ensures EntirelyTerminal(m) ==> ContainsTerminal(m) && !HonorGroup(m)
    ensures HonorGroup(m) ==> !ContainsTerminal(m)
  {
  }

  /** The first tile of a group, whose value `eq_diff_suits` compares. */
  function FirstTile(m: Mentsu): Tile
  {
    match m.kind
    case Sequence(t, _, _) => t
    case _ => m.kind.tile
  }

  /** Same variant, identical values, different suits. */
  predicate EqDiffSuits(a: Mentsu, b: Mentsu)
  {
    if SuitOf(a) == SuitOf(b) then false
    else
      match (a.kind, b.kind)
      case (Sequence(x, _, _), Sequence(y, _, _)) => x.value == y.value
      case (Triplet(x), Triplet(y)) => x.value == y.value
      case (Quad(x), Quad(y)) => x.value == y.value
      case (Pair(x), Pair(y)) => x.value == y.value
      case _ => false
  }

  /** `eq_diff_suits` holds iff the suits differ, the variants agree and the
      first tiles have equal values; hence it is symmetric and irreflexive. */
  lemma EqDiffSuitsCharacterized(a: Mentsu, b: Mentsu)
    ensures EqDiffSuits(a, b) <==>
      SuitOf(a) != SuitOf(b) && Kinds.Rank(a.kind) == Kinds.Rank(b.kind) && FirstTile(a).value == FirstTile(b).value
    ensures EqDiffSuits(a, b) == EqDiffSuits(b, a)
    ensures !EqDiffSuits(a, a)
  {
  }

  /** The derived `Ord` on `Mentsu`: `kind`, then `open`, then `win_wait`. */
  predicate Less(a: Mentsu, b: Mentsu)
  {
    Kinds.Less(a.kind, b.kind) ||
    (a.kind == b.kind && ((!a.open && b.open) || (a.open == b.open && OptionLess(a.winWait, b.winWait))))
  }

  /** The order `sort` uses is a strict total order on full values. */
  lemma LessIsStrictTotalOrder(a: Mentsu, b: Mentsu, c: Mentsu)
    ensures !Less(a, a)
    ensures Less(a, b) ==> !Less(b, a)
    ensures Less(a, b) && Less(b, c) ==> Less(a, c)
    ensures a != b ==> Less(a, b) || Less(b, a)
  {
    Kinds.LessIsStrictTotalOrder(a.kind, b.kind, c.kind);
    Kinds.LessIsStrictTotalOrder(a.kind, b.kind, a.kind);
    Kinds.LessIsStrictTotalOrder(b.kind, c.kind, b.kind);
    match (a.winWait, b.winWait) {
      case (Some(x), Some(y)) => LessIsDeclarationOrder(x, y);
      case _ =>
    }
  }
}
