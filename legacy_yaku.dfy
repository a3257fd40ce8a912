/** The older yaku tables (src/yaku.rs): each yaku is a predicate over a
    grouped hand alone, with no player state. Tanyao, Chanta, Junchan,
    Toitoi, Tsuuiisou and Chinroutou are written as in the newer tables;
    Pinfu is an early draft, Chiitoi counts pair groups and Kokushi accepts
    every hand. */
module LegacyYaku {
  import opened Suits
  import opened Tiles
  import opened Kinds
  import opened Mentsus
  import opened Counting
  import opened Counts
  import YakuTable
  import opened RegularYaku
  import Yakuman
  import opened Engine
  import opened EngineProofs
  import opened LegacyMentsu

  /** `Yaku` with a one-argument predicate, partial where it can panic. */
  datatype Yaku = Yaku(name: string, desc: string, han: nat, openScore: YakuTable.OpenScore, f: seq<Mentsu> --> bool)

  /** `valid_for` applies the predicate. */
  predicate ValidFor(y: Yaku, h: seq<Mentsu>)
    requires y.f.requires(h)
  {
    y.f(h)
  }

  /** The draft Pinfu: no triplet or quad, and the first pair is no honor
      pair. Like the newer one it needs a pair once there is no triplet. */
  predicate PinfuDraft(h: seq<Mentsu>)
    requires PinfuDefined(h)
  {
    NoTriplets(h) && !HonorGroup(h[FirstPair(h)])
  }

  /** The draft is weaker than the newer Pinfu: it follows from it, but it
      also holds for a closed pair of 2m with no Ryanmen wait. */
  lemma PinfuDraftWeaker(h: seq<Mentsu>)
    requires PinfuDefined(h)
    ensures RegularYaku.Pinfu(h) ==> PinfuDraft(h)
    ensures var x := [New(Pair(Tile(2, Man)))]; PinfuDefined(x) && PinfuDraft(x) && !RegularYaku.Pinfu(x)
  {
    var x := [New(Pair(Tile(2, Man)))];
    assert IsPair(x[0]);
    assert HasPair(x);
    assert FirstPair(x) == 0;
  }

  /** Seven pair groups. */
  predicate Chiitoi(h: seq<Mentsu>)
  {
    CountIf(h, IsPair) == 7
  }

  /** One closed pair per tile. */
  function PairsOf(ts: seq<Tile>): (g: seq<Mentsu>)
    ensures |g| == |ts|
    ensures forall i | 0 <= i < |ts| :: g[i] == New(Pair(ts[i]))
  {
    if ts == [] then [] else [New(Pair(ts[0]))] + PairsOf(ts[1..])
  }

  /** The pairs of `ts` group every tile of `ts` twice. */
  lemma PairsOfGroup(ts: seq<Tile>)
    ensures IsGrouping(PairsOf(ts), multiset(ts) + multiset(ts))
    ensures CountIf(PairsOf(ts), IsPair) == |ts|
  {
    PairsOfTiles(ts);
    PairsOfCount(ts);
    forall m | m in PairsOf(ts)
      ensures Fresh(m) && WellFormed(m.kind)
    {
    }
  }

  lemma {:induction false} PairsOfTiles(ts: seq<Tile>)
    ensures GroupTiles(PairsOf(ts)) == multiset(ts) + multiset(ts)
  {
    if ts != [] {
      var g, rest := PairsOf(ts), multiset(ts[1..]);
      PairsOfTiles(ts[1..]);
      assert g[1..] == PairsOf(ts[1..]);
      assert GroupTiles(g) == multiset{ts[0], ts[0]} + (rest + rest);
      assert ts == [ts[0]] + ts[1..];
      assert multiset(ts) == multiset{ts[0]} + rest;
      DoubleCons(ts[0], rest);
    }
  }

  lemma DoubleCons(t: Tile, m: multiset<Tile>)
    ensures multiset{t, t} + (m + m) == (multiset{t} + m) + (multiset{t} + m)
  {
  }

  lemma {:induction false} PairsOfCount(ts: seq<Tile>)
    ensures CountIf(PairsOf(ts), IsPair) == |ts|
  {
    if ts != [] {
      PairsOfCount(ts[1..]);
      assert PairsOf(ts)[1..] == PairsOf(ts[1..]);
    }
  }

  /** A hand is never both winning and seven pairs, so the newer engine,
      which keeps only winning groupings, cannot reach this Chiitoi; the
      older `build_mentsu` keeps the seven pairs of any seven doubled tiles. */
  lemma ChiitoiOnlyUnfiltered(ts: seq<Tile>, h: seq<Mentsu>)
    requires |ts| == 7
    ensures IsWinning(h) ==> !Chiitoi(h)
    ensures exists r :: r in Enumerate(Tally(ts + ts), 0, []) && Chiitoi(r) && !IsWinning(r)
  {
    PairsOfGroup(ts);
    var g := PairsOf(ts);
    BuildMentsuComplete(ts + ts, g);
    assert multiset(ts + ts) == multiset(ts) + multiset(ts);
    var r :| r in Enumerate(Tally(ts + ts), 0, []) && multiset(r) == multiset(g);
    CountIfPermutation(r, g, IsPair);
    assert Chiitoi(r) && !IsWinning(r);
  }

  /** `regular_yaku()`. */
  function RegularTable(): seq<Yaku>
  {
    [ Yaku("Tanyao", "All simples", 1, YakuTable.Illegal, Tanyao),
      Yaku("Chanta", "All mentsu contain at least one terminal or honor", 2, YakuTable.Reduced, Chanta),
      Yaku("Junchan (incompatible w chanta)", "All mentsu contain at least one terminal", 3, YakuTable.Reduced, Junchan),
      Yaku("Pinfu (WIP)", "Minimum fu; no triplets, non-honor pair, and ryanmen wait", 1, YakuTable.Illegal,
           PinfuDraft),
      Yaku("Toitoi", "All triplets", 2, YakuTable.Full, Toitoi)
    ]
  }

  /** `yakuman()`. */
  function YakumanTable(): seq<Yaku>
  {
    [ Yaku("Tsuuiisou", "All honors", 99, YakuTable.Full, Yakuman.Tsuuiisou),
      Yaku("Chinroutou", "All terminals", 99, YakuTable.Full, Yakuman.Chinroutou)
    ]
  }

  /** `weird_yaku_and_yakuman()`. */
  function WeirdTable(): seq<Yaku>
  {
    [ Yaku("Chiitoi", "Seven (7) pairs", 2, YakuTable.Illegal, Chiitoi),
      Yaku("Kokushi musou", "13 terminals/honors + a copy of one", 99, YakuTable.Illegal, _ => true)
    ]
  }

  /** What each regular entry accepts: Pinfu panics exactly when there is
      neither a triplet nor a pair. */
  lemma RegularTableMeaning(h: seq<Mentsu>)
    ensures |RegularTable()| == 5
    ensures ValidFor(RegularTable()[0], h) == Tanyao(h)
    ensures ValidFor(RegularTable()[1], h) == Chanta(h)
    ensures ValidFor(RegularTable()[2], h) == Junchan(h)
    ensures RegularTable()[3].f.requires(h) <==> !(NoTriplets(h) && !HasPair(h))
    ensures RegularTable()[3].f.requires(h) ==> (ValidFor(RegularTable()[3], h) <==> PinfuDraft(h))
    ensures ValidFor(RegularTable()[4], h) <==> forall i | 0 <= i < |h| :: !IsSequence(h[i])
  {
    var t := RegularTable();
    assert t[0].f == Tanyao && t[1].f == Chanta && t[2].f == Junchan && t[3].f == PinfuDraft && t[4].f == Toitoi;
    assert PinfuDraft.requires(h) <==> PinfuDefined(h);
  }

  /** The yakuman entries, and the weird ones: Chiitoi counts seven pair
      groups and Kokushi accepts every hand. */
  lemma OtherTablesMeaning(h: seq<Mentsu>)
    ensures |YakumanTable()| == 2 && |WeirdTable()| == 2
    ensures ValidFor(YakumanTable()[0], h) == Yakuman.Tsuuiisou(h)
    ensures ValidFor(YakumanTable()[1], h) == Yakuman.Chinroutou(h)
    ensures ValidFor(WeirdTable()[0], h) <==> CountIf(h, IsPair) == 7
    ensures ValidFor(WeirdTable()[1], h)
  {
  }
}
