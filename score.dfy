/** `fu` (src/score.rs): the base points of an annotated hand. */
module Score {
  import opened Wrappers
  import opened Tiles
  import opened Kinds
  import opened Waits
  import opened Mentsus

  /** No group is open unless it is the one completed by the winning tile. */
  predicate Menzenchin(hand: seq<Mentsu>)
  {
    forall i | 0 <= i < |hand| :: !(hand[i].open && hand[i].winWait.None?)
  }

  /** 30 for a ron with a closed hand, otherwise 20. */
  function BaseFu(hand: seq<Mentsu>, how: WinMethod): nat
  {
    if how == Ron && Menzenchin(hand) then 30 else 20
  }

  /** 2 for a kanchan, penchan or tanki wait. */
  function WaitFu(m: Mentsu): nat
  {
    if m.winWait.Some? && !(m.winWait.value == Ryanmen || m.winWait.value == Shanpon) then 2 else 0
  }

  /** Triplet 4, quad 16, halved when open, doubled for honors and
      terminals; sequences and pairs score nothing. */
  function GroupFu(m: Mentsu): nat
  {
    var base := if m.kind.Triplet? then 4 else if m.kind.Quad? then 16 else 0;
    var halved := if m.open then base / 2 else base;
    if HonorGroup(m) || EntirelyTerminal(m) then halved * 2 else halved
  }

  /** The points the loop adds for the groups of `hand`. */
  function SumFu(hand: seq<Mentsu>): nat
  {
    if hand == [] then 0
    else SumFu(hand[..|hand| - 1]) + WaitFu(hand[|hand| - 1]) + GroupFu(hand[|hand| - 1])
  }

  function RawFu(hand: seq<Mentsu>, how: WinMethod): nat
  {
    BaseFu(hand, how) + SumFu(hand)
  }

  /** The smallest multiple of 10 at or above `x`. */
  function RoundUp10(x: nat): (r: nat)
    ensures r % 10 == 0 && x <= r < x + 10
  {
    if x % 10 == 0 then x else x + (10 - x % 10)
  }

  method Fu(hand: seq<Mentsu>, how: WinMethod) returns (fu: nat)
    ensures fu == RoundUp10(RawFu(hand, how))
  {
    var menzenchin := true;
    for k := 0 to |hand|
      invariant menzenchin == Menzenchin(hand[..k])
    {
      if hand[k].open && hand[k].winWait.None? {
        menzenchin := false;
      }
    }
    assert hand[..|hand|] == hand;
    var total: nat := if how == Ron && menzenchin then 30 else 20;
    for k := 0 to |hand|
      invariant total == BaseFu(hand, how) + SumFu(hand[..k])
    {
      assert hand[..k + 1][..k] == hand[..k];
      var m := hand[k];
      if m.winWait.Some? && !(m.winWait.value == Ryanmen || m.winWait.value == Shanpon) {
        total := total + 2;
      }
      var pts: nat;
      match m.kind {
        case Triplet(_) => pts := 4;
        case Quad(_) => pts := 16;
        case _ => continue;
      }
      if m.open {
        pts := pts / 2;
      }
      if HonorGroup(m) || EntirelyTerminal(m) {
        pts := pts * 2;
      }
      total := total + pts;
    }
    fu := if total % 10 == 0 then total else total + (10 - total % 10);
  }

  /** The result is a multiple of 10, at least 20, and no multiple of 10
      at or above the raw total is smaller. */
  lemma FuBounds(hand: seq<Mentsu>, how: WinMethod, k: nat)
    ensures RoundUp10(RawFu(hand, how)) >= 20 && RoundUp10(RawFu(hand, how)) % 10 == 0
    ensures k % 10 == 0 && k >= RawFu(hand, how) ==> k >= RoundUp10(RawFu(hand, how))
  {
  }

  /** The group points by shape, openness and tile class. */
  lemma GroupFuTable(m: Mentsu)
    ensures m.kind.Sequence? || m.kind.Pair? ==> GroupFu(m) == 0
    ensures m.kind.Triplet? ==> GroupFu(m) == (if m.open then 2 else 4) * (if HonorGroup(m) || EntirelyTerminal(m) then 2 else 1)
    ensures m.kind.Quad? ==> GroupFu(m) == (if m.open then 8 else 16) * (if HonorGroup(m) || EntirelyTerminal(m) then 2 else 1)
  {
  }

  /** The points of two lists of groups add up. */
  lemma {:induction false} SumFuAppend(a: seq<Mentsu>, b: seq<Mentsu>)
    ensures SumFu(a + b) == SumFu(a) + SumFu(b)
  {
    if b == [] {
      assert a + b == a;
    } else {
      assert (a + b)[..|a + b| - 1] == a + b[..|b| - 1];
      SumFuAppend(a, b[..|b| - 1]);
    }
  }

  /** A hand of sequences and pairs, closed except for the winning group,
      waiting on a ryanmen, scores the minimum: 20 on a tsumo, 30 on a ron. */
  lemma {:induction false} MinimumFu(hand: seq<Mentsu>, how: WinMethod)
    requires forall i | 0 <= i < |hand| :: (hand[i].kind.Sequence? || hand[i].kind.Pair?)
    requires forall i | 0 <= i < |hand| :: hand[i].winWait == None || hand[i].winWait == Some(Ryanmen)
    requires Menzenchin(hand)
    ensures RoundUp10(RawFu(hand, how)) == if how == Ron then 30 else 20
  {
    NoGroupPoints(hand);
  }

  lemma {:induction false} NoGroupPoints(hand: seq<Mentsu>)
    requires forall i | 0 <= i < |hand| :: (hand[i].kind.Sequence? || hand[i].kind.Pair?)
    requires forall i | 0 <= i < |hand| :: hand[i].winWait == None || hand[i].winWait == Some(Ryanmen)
    ensures SumFu(hand) == 0
  {
    if hand != [] {
      NoGroupPoints(hand[..|hand| - 1]);
    }
  }
}
