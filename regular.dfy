/** The newer table of regular yaku (src/yaku/regular.rs): each yaku is a
    predicate over a grouped hand and the player's state. */
module RegularYaku {
  import opened Wrappers
  import opened Suits
  import opened Tiles
  import opened Kinds
  import opened Waits
  import opened Mentsus
  import opened Counting
  import opened YakuTable
  import Score
  import Engine
  import BuildProofs

  // ---------------------------------------------------------------------
  // Tanyao, Menzen-tsumo, the wind yakuhai, Chanta, Junchan
  // ---------------------------------------------------------------------

  /** All simples: no group holds a terminal. */
  predicate Tanyao(h: seq<Mentsu>)
  {
    forall i | 0 <= i < |h| :: !ContainsTerminal(h[i])
  }

  /** Tanyao looks at terminals only: it holds iff no tile of any group is
      a terminal, so groups of honors do not break it. */
  lemma TanyaoByTiles(h: seq<Mentsu>)
    ensures Tanyao(h) <==> forall i, t | 0 <= i < |h| && t in Members(h[i].kind) :: !Terminal(t)
    ensures (forall i | 0 <= i < |h| :: HonorGroup(h[i])) ==> Tanyao(h)
  {
    forall i | 0 <= i < |h|
      ensures ContainsTerminal(h[i]) <==> exists t | t in Members(h[i].kind) :: Terminal(t)
      ensures HonorGroup(h[i]) ==> !ContainsTerminal(h[i])
    {
      TerminalMembers(h[i]);
      KindPredicates(h[i]);
    }
  }

  lemma TerminalMembers(m: Mentsu)
    ensures ContainsTerminal(m) <==> exists t | t in Members(m.kind) :: Terminal(t)
  {
    match m.kind
    case Sequence(a, b, c) =>
      assert a in Members(m.kind) && b in Members(m.kind) && c in Members(m.kind);
    case _ =>
      assert m.kind.tile in Members(m.kind);
  }

  /** Won by tsumo in menzenchin: no group is open. */
  predicate MenzenTsumo(h: seq<Mentsu>)
  {
    forall i | 0 <= i < |h| :: !h[i].open
  }

  /** On a hand the engine builds, the group completed on a ron is open,
      so Menzen-tsumo can only hold for a tsumo. */
  lemma MenzenTsumoOnlyOnTsumo(tiles: seq<Tile>, w: Tile, how: WinMethod, x: seq<Mentsu>)
    requires Engine.BuildSpec(tiles, w, how).Success? && x in Engine.BuildSpec(tiles, w, how).value
    requires MenzenTsumo(x)
    ensures how == Tsumo
  {
    BuildProofs.BuildOutputShape(tiles, w, how, x);
    CountIfPositive(x, BuildProofs.HasWait);
    var i :| 0 <= i < |x| && BuildProofs.HasWait(x[i]);
    assert x[i] in x;
  }

  /** A round or seat wind yakuhai: a triplet or quad whose wind is `w`.
      The wind of a group is `Mentsu::wind`, which is not part of this
      model; `windOf` stands for it. */
  predicate WindYakuhai(h: seq<Mentsu>, w: Wind, windOf: Mentsu -> Option<Wind>)
  {
    exists i | 0 <= i < |h| :: IsTriplet(h[i]) && windOf(h[i]) == Some(w)
  }

  /** Every group holds a terminal or is an honor group. */
  predicate Chanta(h: seq<Mentsu>)
  {
    forall i | 0 <= i < |h| :: ContainsTerminal(h[i]) || HonorGroup(h[i])
  }

  /** Every group holds a terminal. */
  predicate Junchan(h: seq<Mentsu>)
  {
    forall i | 0 <= i < |h| :: ContainsTerminal(h[i])
  }

  lemma JunchanImpliesChanta(h: seq<Mentsu>)
    ensures Junchan(h) ==> Chanta(h)
  {
  }

  /** Chanta and Tanyao together leave nothing but honor groups. */
  lemma ChantaAndTanyao(h: seq<Mentsu>)
    ensures Chanta(h) && Tanyao(h) <==> forall i | 0 <= i < |h| :: HonorGroup(h[i])
  {
    forall i | 0 <= i < |h|
      ensures HonorGroup(h[i]) ==> !ContainsTerminal(h[i])
    {
      KindPredicates(h[i]);
    }
  }

  // ---------------------------------------------------------------------
  // Pinfu
  // ---------------------------------------------------------------------

  predicate NoTriplets(h: seq<Mentsu>)
  {
    forall i | 0 <= i < |h| :: !IsTriplet(h[i])
  }

  predicate HasPair(h: seq<Mentsu>)
  {
    exists i | 0 <= i < |h| :: IsPair(h[i])
  }

  /** `find(|m| m.pair()).unwrap()`: the index of the first pair. */
  function FirstPair(h: seq<Mentsu>): (i: nat)
    requires HasPair(h)
    ensures i < |h| && IsPair(h[i])
    ensures forall j | 0 <= j < i :: !IsPair(h[j])
  {
    if IsPair(h[0]) then 0
    else
      assert HasPair(h[1..]) by {
        var k :| 0 <= k < |h| && IsPair(h[k]);
        assert h[1..][k - 1] == h[k];
      }
      FirstPair(h[1..]) + 1
  }

  /** The `unwrap` panics on a hand without a pair; the conjunction reaches
      it only when no group is a triplet or quad. */
  predicate PinfuDefined(h: seq<Mentsu>)
  {
    NoTriplets(h) ==> HasPair(h)
  }

  /** No triplet or quad, the first pair is not an honor pair, menzenchin,
      and some group completed on a ryanmen wait. */
  predicate Pinfu(h: seq<Mentsu>)
    requires PinfuDefined(h)
  {
    NoTriplets(h) && !HonorGroup(h[FirstPair(h)]) && Score.Menzenchin(h) &&
    exists i | 0 <= i < |h| :: h[i].winWait == Some(Ryanmen)
  }

  /** "Minimum fu": a pinfu hand with at most one annotated group scores
      20 fu on a tsumo and 30 on a ron. */
  lemma PinfuMinimumFu(h: seq<Mentsu>, how: WinMethod)
    requires PinfuDefined(h) && Pinfu(h)
    requires CountIf(h, BuildProofs.HasWait) <= 1
    ensures Score.RoundUp10(Score.RawFu(h, how)) == if how == Ron then 30 else 20
  {
    var r :| 0 <= r < |h| && h[r].winWait == Some(Ryanmen);
    forall i | 0 <= i < |h|
      ensures h[i].winWait == None || h[i].winWait == Some(Ryanmen)
    {
      if i != r && h[i].winWait.Some? {
        CountIfTwo(h, BuildProofs.HasWait, i, r);
      }
    }
    forall i | 0 <= i < |h|
      ensures h[i].kind.Sequence? || h[i].kind.Pair?
    {
      KindPredicates(h[i]);
    }
    Score.MinimumFu(h, how);
  }

  /** Pinfu never panics on a hand the engine builds, and a built pinfu
      hand scores the minimum fu. */
  lemma PinfuOnBuiltHand(tiles: seq<Tile>, w: Tile, how: WinMethod, x: seq<Mentsu>)
    requires Engine.BuildSpec(tiles, w, how).Success? && x in Engine.BuildSpec(tiles, w, how).value
    ensures PinfuDefined(x)
    ensures Pinfu(x) ==> Score.RoundUp10(Score.RawFu(x, how)) == if how == Ron then 30 else 20
  {
    BuildProofs.BuildOutputShape(tiles, w, how, x);
    CountIfPositive(x, IsPair);
    if Pinfu(x) {
      PinfuMinimumFu(x, how);
    }
  }

  // ---------------------------------------------------------------------
  // Dragon yakuhai, Sanankou, Toitoi
  // ---------------------------------------------------------------------

  /** A dragon yakuhai: a `Kind::Triplet` of the honor of value `v`. */
  predicate DragonTriplet(h: seq<Mentsu>, v: nat)
  {
    exists i | 0 <= i < |h| :: h[i].kind.Triplet? && IsHonor(h[i].kind.tile) && h[i].kind.tile.value == v
  }

  predicate WhiteDragon(h: seq<Mentsu>)
  {
    DragonTriplet(h, 5)
  }

  predicate GreenDragon(h: seq<Mentsu>)
  {
    DragonTriplet(h, 6)
  }

  predicate RedDragon(h: seq<Mentsu>)
  {
    DragonTriplet(h, 7)
  }

  /** A dragon yakuhai needs a group of kind exactly `Triplet(v, Honor)`: a
      quad of the same tile does not count. */
  lemma DragonTripletKind(h: seq<Mentsu>, v: nat)
    ensures DragonTriplet(h, v) <==> exists i | 0 <= i < |h| :: h[i].kind == Triplet(Tile(v, Honor))
  {
  }

  predicate ClosedTriplet(m: Mentsu)
  {
    Closed(m) && IsTriplet(m)
  }

  /** Three concealed triplets or quads. */
  predicate Sanankou(h: seq<Mentsu>)
  {
    CountIf(h, ClosedTriplet) >= 3
  }

  /** Sanankou does not depend on the order of the groups, so sorting a
      hand keeps it. */
  lemma SanankouPermutation(a: seq<Mentsu>, b: seq<Mentsu>)
    requires multiset(a) == multiset(b)
    ensures Sanankou(a) == Sanankou(b)
  {
    CountIfPermutation(a, b, ClosedTriplet);
  }

  /** All triplets: no group is a sequence. */
  predicate Toitoi(h: seq<Mentsu>)
  {
    forall i | 0 <= i < |h| :: !IsSequence(h[i])
  }

  /** On a winning hand Toitoi means four triplets or quads and a pair. */
  lemma ToitoiShapes(h: seq<Mentsu>)
    ensures Toitoi(h) <==> forall i | 0 <= i < |h| :: IsTriplet(h[i]) || IsPair(h[i])
  {
    forall i | 0 <= i < |h|
      ensures !IsSequence(h[i]) <==> IsTriplet(h[i]) || IsPair(h[i])
    {
      KindPredicates(h[i]);
    }
  }

  // ---------------------------------------------------------------------
  // Iipeikou and Ryanpeikou
  // ---------------------------------------------------------------------

  /** `j != i && other == m`: another group of the same kind (`==` on
      `Mentsu` compares kinds only). */
  predicate Twin(h: seq<Mentsu>, i: nat, j: nat)
    requires i < |h| && j < |h|
  {
    j != i && Equivalent(h[j], h[i])
  }

  predicate HasTwin(h: seq<Mentsu>, i: nat)
    requires i < |h|
  {
    exists j | 0 <= j < |h| :: Twin(h, i, j)
  }

  /** `enumerate().find(|(j, other)| *j != i && *other == m)`: the first
      twin of group `i`, if any. */
  method FindTwin(h: seq<Mentsu>, i: nat) returns (j: Option<nat>)
    requires i < |h|
    ensures j.Some? ==> j.value < |h| && Twin(h, i, j.value) && forall k | 0 <= k < j.value :: !Twin(h, i, k)
    ensures j.None? <==> !HasTwin(h, i)
  {
    for k := 0 to |h|
      invariant forall l | 0 <= l < k :: !Twin(h, i, l)
    {
      if k != i && Equivalent(h[k], h[i]) {
        return Some(k);
      }
    }
    return None;
  }

  /** Identical sequences: some sequence has a twin. */
  predicate Iipeikou(h: seq<Mentsu>)
  {
    exists i | 0 <= i < |h| :: IsSequence(h[i]) && HasTwin(h, i)
  }

  /** The Iipeikou loop: the first sequence with a twin returns true. */
  method ScanIipeikou(h: seq<Mentsu>) returns (r: bool)
    ensures r == Iipeikou(h)
  {
    for i := 0 to |h|
      invariant forall k | 0 <= k < i :: !(IsSequence(h[k]) && HasTwin(h, k))
    {
      if IsSequence(h[i]) {
        var j := FindTwin(h, i);
        if j.Some? {
          return true;
        }
      }
    }
    return false;
  }

  /** The first sequence at or after `from` that has a twin. */
  function FirstTwinned(h: seq<Mentsu>, from: nat): (i: Option<nat>)
    decreases |h| - from
    ensures i.Some? ==> from <= i.value < |h| && IsSequence(h[i.value]) && HasTwin(h, i.value)
    ensures i.Some? ==> forall k | from <= k < i.value :: !(IsSequence(h[k]) && HasTwin(h, k))
    ensures i.None? ==> forall k | from <= k < |h| :: !(IsSequence(h[k]) && HasTwin(h, k))
  {
    if from >= |h| then None
    else if IsSequence(h[from]) && HasTwin(h, from) then Some(from)
    else FirstTwinned(h, from + 1)
  }

  /** The first twin of group `i` at or after `from`. */
  function FirstTwin(h: seq<Mentsu>, i: nat, from: nat): (j: Option<nat>)
    requires i < |h|
    decreases |h| - from
    ensures j.Some? ==> from <= j.value < |h| && Twin(h, i, j.value)
    ensures j.Some? ==> forall k | from <= k < j.value :: !Twin(h, i, k)
    ensures j.None? ==> forall k | from <= k < |h| :: !Twin(h, i, k)
  {
    if from >= |h| then None
    else if Twin(h, i, from) then Some(from)
    else FirstTwin(h, i, from + 1)
  }

  /** Ryanpeikou as the loop decides it: the first sequence `i1` with a
      twin and its first twin `j1` are recorded, and the yaku holds when a
      later sequence outside `{i1, j1}` also has a twin. */
  predicate Ryanpeikou(h: seq<Mentsu>)
  {
    var first := FirstTwinned(h, 0);
    first.Some? &&
    var i1 := first.value;
    var j1 := FirstTwin(h, i1, 0);
    j1.Some? &&
    exists i2 | i1 < i2 < |h| :: i2 != j1.value && IsSequence(h[i2]) && HasTwin(h, i2)
  }

  /** A first index found by a scan is the one `FirstTwinned` names. */
  lemma FirstTwinnedIs(h: seq<Mentsu>, i: nat)
    requires i < |h| && IsSequence(h[i]) && HasTwin(h, i)
    requires forall k | 0 <= k < i :: !(IsSequence(h[k]) && HasTwin(h, k))
    ensures FirstTwinned(h, 0) == Some(i)
  {
  }

  lemma FirstTwinIs(h: seq<Mentsu>, i: nat, j: nat)
    requires i < |h| && j < |h| && Twin(h, i, j)
    requires forall k | 0 <= k < j :: !Twin(h, i, k)
    ensures FirstTwin(h, i, 0) == Some(j)
  {
  }

  /** The Ryanpeikou loop with its `twin_idx` record. */
  method ScanRyanpeikou(h: seq<Mentsu>) returns (r: bool)
    ensures r == Ryanpeikou(h)
  {
    var twin: Option<(nat, nat)> := None;
    for i := 0 to |h|
      invariant twin.None? ==> forall k | 0 <= k < i :: !(IsSequence(h[k]) && HasTwin(h, k))
      invariant twin.Some? ==> twin.value.0 < i && FirstTwinned(h, 0) == Some(twin.value.0)
      invariant twin.Some? ==> FirstTwin(h, twin.value.0, 0) == Some(twin.value.1)
      invariant twin.Some? ==>
        forall k | twin.value.0 < k < i :: !(k != twin.value.1 && IsSequence(h[k]) && HasTwin(h, k))
    {
      if IsSequence(h[i]) {
        if twin.Some? && (twin.value.0 == i || twin.value.1 == i) {
          continue;
        }
        var j := FindTwin(h, i);
        if j.Some? {
          if twin.Some? {
            return true;
          }
          FirstTwinnedIs(h, i);
          FirstTwinIs(h, i, j.value);
          twin := Some((i, j.value));
        }
      }
    }
    return false;
  }

  lemma RyanpeikouImpliesIipeikou(h: seq<Mentsu>)
    ensures Ryanpeikou(h) ==> Iipeikou(h)
  {
    if Ryanpeikou(h) {
      var i1 := FirstTwinned(h, 0).value;
      assert IsSequence(h[i1]) && HasTwin(h, i1);
    }
  }

  /** A sequence at `a` with an identical one at `b`. */
  predicate SequencePair(h: seq<Mentsu>, a: nat, b: nat)
    requires a < |h| && b < |h|
  {
    IsSequence(h[a]) && Equivalent(h[a], h[b])
  }

  /** Two pairs of identical sequences at four different positions. */
  predicate RyanpeikouFixed(h: seq<Mentsu>)
  {
    exists a, b, c, d | 0 <= a < |h| && 0 <= b < |h| && 0 <= c < |h| && 0 <= d < |h| ::
      a != b && a != c && a != d && b != c && b != d && c != d &&
      SequencePair(h, a, b) && SequencePair(h, c, d)
  }

  /** Three copies of one sequence and a pair. */
  function ThreeTwins(): seq<Mentsu>
  {
    var s := New(Sequence(Tile(1, Man), Tile(2, Man), Tile(3, Man)));
    [s, s, s, New(Pair(Tile(5, Pin)))]
  }

  /** The loop accepts three identical sequences: the third sequence finds
      the first one as its twin, although that one is already matched. */
  lemma RyanpeikouThreeTwins()
    ensures Ryanpeikou(ThreeTwins())
  {
    var h := ThreeTwins();
    assert Twin(h, 0, 1) && Twin(h, 2, 0);
    FirstTwinnedIs(h, 0);
    FirstTwinIs(h, 0, 1);
    assert IsSequence(h[2]) && HasTwin(h, 2);
  }

  /** Three identical sequences are not two pairs of them. */
  lemma ThreeTwinsNotFixed()
    ensures !RyanpeikouFixed(ThreeTwins())
  {
    var h := ThreeTwins();
    forall a, b, c, d | 0 <= a < |h| && 0 <= b < |h| && 0 <= c < |h| && 0 <= d < |h| &&
      a != b && a != c && a != d && b != c && b != d && c != d
      ensures !(SequencePair(h, a, b) && SequencePair(h, c, d))
    {
      ThreeTwinsAt(a, b, c, d);
    }
  }

  lemma ThreeTwinsAt(a: nat, b: nat, c: nat, d: nat)
    requires a < 4 && b < 4 && c < 4 && d < 4
    requires a != b && a != c && a != d && b != c && b != d && c != d
    ensures var h := ThreeTwins();
      !(SequencePair(h, a, b) && SequencePair(h, c, d))
  {
    var h := ThreeTwins();
    assert h[3].kind.Pair?;
    assert h[0].kind.Sequence? && h[1].kind.Sequence? && h[2].kind.Sequence?;
    assert a == 3 || b == 3 || c == 3 || d == 3;
  }

  /** Of four different positions, one lies beyond the recorded pair. */
  lemma OutsidePair(h: seq<Mentsu>, a: nat, b: nat, c: nat, i1: nat, j1: nat) returns (x: nat)
    requires a != b && a != c && b != c
    requires a < |h| && b < |h| && c < |h| && i1 < |h|
    requires forall k | 0 <= k < i1 :: !(IsSequence(h[k]) && HasTwin(h, k))
    requires IsSequence(h[a]) && HasTwin(h, a) && IsSequence(h[b]) && HasTwin(h, b)
    requires IsSequence(h[c]) && HasTwin(h, c)
    ensures i1 < x < |h| && x != j1 && IsSequence(h[x]) && HasTwin(h, x)
  {
    x := if a != i1 && a != j1 then a else if b != i1 && b != j1 then b else c;
  }

  /** The corrected Ryanpeikou is Iipeikou strengthened, and everything it
      accepts the loop accepts too: the loop's only error is accepting
      too much. */
  lemma RyanpeikouFixedSound(h: seq<Mentsu>)
    requires RyanpeikouFixed(h)
    ensures Iipeikou(h) && Ryanpeikou(h)
  {
    var a, b, c, d :| 0 <= a < |h| && 0 <= b < |h| && 0 <= c < |h| && 0 <= d < |h| &&
      a != b && a != c && a != d && b != c && b != d && c != d &&
      SequencePair(h, a, b) && SequencePair(h, c, d);
    FixedWitnessSound(h, a, b, c, d);
  }

  lemma FixedWitnessSound(h: seq<Mentsu>, a: nat, b: nat, c: nat, d: nat)
    requires a < |h| && b < |h| && c < |h| && d < |h|
    requires a != b && a != c && a != d && b != c && b != d && c != d
    requires SequencePair(h, a, b) && SequencePair(h, c, d)
    ensures Iipeikou(h) && Ryanpeikou(h)
  {
    assert Twin(h, a, b) && Twin(h, b, a) && Twin(h, c, d);
    assert IsSequence(h[b]);
    var first := FirstTwinned(h, 0);
    assert first.Some?;
    var i1 := first.value;
    var second := FirstTwin(h, i1, 0);
    assert second.Some?;
    var x := OutsidePair(h, a, b, c, i1, second.value);
  }

  // ---------------------------------------------------------------------
  // Sanshoku doukou and doujun
  // ---------------------------------------------------------------------

  /** `filter(|(j, n)| *j != i && m.eq_diff_suits(*n)).count()` over the
      first `n` groups. */
  function SuitMatches(h: seq<Mentsu>, i: nat, n: nat): nat
    requires i < |h| && n <= |h|
  {
    if n == 0 then 0
    else SuitMatches(h, i, n - 1) + (if n - 1 != i && EqDiffSuits(h[i], h[n - 1]) then 1 else 0)
  }

  /** The count reaches 1 and 2 exactly when there are one or two such
      groups. */
  lemma {:induction false} SuitMatchesMeaning(h: seq<Mentsu>, i: nat, n: nat)
    requires i < |h| && n <= |h|
    ensures SuitMatches(h, i, n) >= 1 <==> exists j | 0 <= j < n :: j != i && EqDiffSuits(h[i], h[j])
    ensures SuitMatches(h, i, n) >= 2 <==>
      exists j, k | 0 <= j < k < n :: j != i && k != i && EqDiffSuits(h[i], h[j]) && EqDiffSuits(h[i], h[k])
  {
    if n > 0 {
      SuitMatchesMeaning(h, i, n - 1);
    }
  }

  /** Sanshoku as written: some group of the given shape has at least two
      other groups that are `eq_diff_suits` with it. Doukou uses
      `triplet()` as the shape, doujun `sequence()`. */
  predicate Sanshoku(h: seq<Mentsu>, shape: Mentsu -> bool)
  {
    exists i | 0 <= i < |h| :: shape(h[i]) && SuitMatches(h, i, |h|) >= 2
  }

  /** The Sanshoku loops: for each group of the shape, count its matches. */
  method ScanSanshoku(h: seq<Mentsu>, shape: Mentsu -> bool) returns (r: bool)
    ensures r == Sanshoku(h, shape)
  {
    for i := 0 to |h|
      invariant forall k | 0 <= k < i :: !(shape(h[k]) && SuitMatches(h, k, |h|) >= 2)
    {
      if shape(h[i]) {
        var c := 0;
        for j := 0 to |h|
          invariant c == SuitMatches(h, i, j)
        {
          if j != i && EqDiffSuits(h[i], h[j]) {
            c := c + 1;
          }
        }
        if c >= 2 {
          return true;
        }
      }
    }
    return false;
  }

  /** Sanshoku as written, stated by its witnesses. */
  lemma SanshokuWitnesses(h: seq<Mentsu>, shape: Mentsu -> bool)
    ensures Sanshoku(h, shape) <==>
      exists i, j, k | 0 <= i < |h| && 0 <= j < k < |h| ::
        shape(h[i]) && j != i && k != i && EqDiffSuits(h[i], h[j]) && EqDiffSuits(h[i], h[k])
  {
    forall i | 0 <= i < |h| {
      SuitMatchesMeaning(h, i, |h|);
    }
  }

  /** Three colours: groups of the shape with the same variant and first
      value, one in each of Man, Pin and Sou. */
  predicate SanshokuFixed(h: seq<Mentsu>, shape: Mentsu -> bool)
  {
    exists i, j, k | 0 <= i < |h| && 0 <= j < |h| && 0 <= k < |h| ::
      shape(h[i]) && SuitOf(h[i]) == Man && SuitOf(h[j]) == Pin && SuitOf(h[k]) == Sou &&
      EqDiffSuits(h[i], h[j]) && EqDiffSuits(h[i], h[k])
  }

  /** Sequences 123 in Man, Pin and Pin. */
  function TwoColours(): seq<Mentsu>
  {
    var m := New(Sequence(Tile(1, Man), Tile(2, Man), Tile(3, Man)));
    var p := New(Sequence(Tile(1, Pin), Tile(2, Pin), Tile(3, Pin)));
    [m, p, p]
  }

  /** As written, two matches in the same suit are enough: 123m, 123p,
      123p is taken for "three colours". */
  lemma SanshokuTwoColours()
    ensures Sanshoku(TwoColours(), IsSequence) && !SanshokuFixed(TwoColours(), IsSequence)
  {
    var h := TwoColours();
    assert SuitMatches(h, 0, 3) == 2;
    assert forall x | 0 <= x < |h| :: SuitOf(h[x]) != Sou;
  }

  /** The corrected Sanshoku finds three groups that are pairwise
      `eq_diff_suits`, and the loop accepts every such hand. */
  lemma SanshokuFixedSound(h: seq<Mentsu>, shape: Mentsu -> bool)
    ensures SanshokuFixed(h, shape) ==> Sanshoku(h, shape)
    ensures SanshokuFixed(h, shape) ==>
      exists i, j, k | 0 <= i < |h| && 0 <= j < |h| && 0 <= k < |h| ::
        shape(h[i]) && EqDiffSuits(h[i], h[j]) && EqDiffSuits(h[i], h[k]) && EqDiffSuits(h[j], h[k])
  {
    if SanshokuFixed(h, shape) {
      var i, j, k :| 0 <= i < |h| && 0 <= j < |h| && 0 <= k < |h| &&
        shape(h[i]) && SuitOf(h[i]) == Man && SuitOf(h[j]) == Pin && SuitOf(h[k]) == Sou &&
        EqDiffSuits(h[i], h[j]) && EqDiffSuits(h[i], h[k]);
      ThirdPair(h[i], h[j], h[k]);
      assert shape(h[i]) && EqDiffSuits(h[i], h[j]) && EqDiffSuits(h[i], h[k]) && EqDiffSuits(h[j], h[k]);
      TwoMatches(h, i, j, k);
      assert shape(h[i]) && SuitMatches(h, i, |h|) >= 2;
    }
  }

  /** Two other groups matching group `i` make its count reach 2. */
  lemma TwoMatches(h: seq<Mentsu>, i: nat, j: nat, k: nat)
    requires i < |h| && j < |h| && k < |h| && j != k && j != i && k != i
    requires EqDiffSuits(h[i], h[j]) && EqDiffSuits(h[i], h[k])
    ensures SuitMatches(h, i, |h|) >= 2
  {
    SuitMatchesMeaning(h, i, |h|);
    if j < k {
      assert j != i && k != i && EqDiffSuits(h[i], h[j]) && EqDiffSuits(h[i], h[k]);
    } else {
      assert k != i && j != i && EqDiffSuits(h[i], h[k]) && EqDiffSuits(h[i], h[j]);
    }
  }

  /** Two groups in other suits matching a Man group match each other. */
  lemma ThirdPair(a: Mentsu, b: Mentsu, c: Mentsu)
    requires SuitOf(a) == Man && SuitOf(b) == Pin && SuitOf(c) == Sou
    requires EqDiffSuits(a, b) && EqDiffSuits(a, c)
    ensures EqDiffSuits(b, c)
  {
    EqDiffSuitsCharacterized(a, b);
    EqDiffSuitsCharacterized(a, c);
    EqDiffSuitsCharacterized(b, c);
  }

  // ---------------------------------------------------------------------
  // Ittsuu
  // ---------------------------------------------------------------------

  /** A sequence of suit `s` whose first tile has value `v`. */
  predicate StartsAt(m: Mentsu, s: Suit, v: nat)
  {
    SuitOf(m) == s && m.kind.Sequence? && m.kind.first.value == v
  }

  /** The `seqs` counter after the loop has seen the groups `ms` for suit
      `s`; the loop returns as soon as it reaches 3. */
  function Progress(ms: seq<Mentsu>, s: Suit): (k: nat)
    ensures k <= 3
  {
    if ms == [] then 0
    else
      var k := Progress(ms[..|ms| - 1], s);
      if k < 3 && StartsAt(ms[|ms| - 1], s, 3 * k + 1) then k + 1 else k
  }

  /** The pure straight in suit `s`: sequences starting at 1, 4 and 7 in
      this order. */
  predicate Straight(ms: seq<Mentsu>, s: Suit)
  {
    exists a, b, c | 0 <= a < b < c < |ms| :: StartsAt(ms[a], s, 1) && StartsAt(ms[b], s, 4) && StartsAt(ms[c], s, 7)
  }

  /** Ittsuu: a pure straight in one of the suits `Suit::iter()` lists. */
  predicate Ittsuu(h: seq<Mentsu>)
  {
    Straight(h, Man) || Straight(h, Pin) || Straight(h, Sou) || Straight(h, Honor)
  }

  predicate HasStart(ms: seq<Mentsu>, s: Suit)
  {
    exists a | 0 <= a < |ms| :: StartsAt(ms[a], s, 1)
  }

  predicate HasStartPair(ms: seq<Mentsu>, s: Suit)
  {
    exists a, b | 0 <= a < b < |ms| :: StartsAt(ms[a], s, 1) && StartsAt(ms[b], s, 4)
  }

  lemma ExtendStart(ms: seq<Mentsu>, s: Suit)
    requires ms != []
    ensures HasStart(ms, s) <==> HasStart(ms[..|ms| - 1], s) || StartsAt(ms[|ms| - 1], s, 1)
  {
    var init := ms[..|ms| - 1];
    if HasStart(ms, s) {
      var a :| 0 <= a < |ms| && StartsAt(ms[a], s, 1);
      if a < |init| {
        assert StartsAt(init[a], s, 1);
      }
    }
    if HasStart(init, s) {
      var a :| 0 <= a < |init| && StartsAt(init[a], s, 1);
      assert StartsAt(ms[a], s, 1);
    }
  }

  lemma ExtendStartPair(ms: seq<Mentsu>, s: Suit)
    requires ms != []
    ensures HasStartPair(ms, s) <==>
      HasStartPair(ms[..|ms| - 1], s) || (HasStart(ms[..|ms| - 1], s) && StartsAt(ms[|ms| - 1], s, 4))
  {
    var init := ms[..|ms| - 1];
    if HasStartPair(ms, s) {
      var a, b :| 0 <= a < b < |ms| && StartsAt(ms[a], s, 1) && StartsAt(ms[b], s, 4);
      assert StartsAt(init[a], s, 1);
      if b < |init| {
        assert StartsAt(init[b], s, 4);
      }
    }
    if HasStartPair(init, s) {
      var a, b :| 0 <= a < b < |init| && StartsAt(init[a], s, 1) && StartsAt(init[b], s, 4);
      assert StartsAt(ms[a], s, 1) && StartsAt(ms[b], s, 4);
    }
    if HasStart(init, s) && StartsAt(ms[|ms| - 1], s, 4) {
      var a :| 0 <= a < |init| && StartsAt(init[a], s, 1);
      assert StartsAt(ms[a], s, 1);
    }
  }

  lemma ExtendStraight(ms: seq<Mentsu>, s: Suit)
    requires ms != []
    ensures Straight(ms, s) <==>
      Straight(ms[..|ms| - 1], s) || (HasStartPair(ms[..|ms| - 1], s) && StartsAt(ms[|ms| - 1], s, 7))
  {
    if Straight(ms, s) {
      ShrinkStraight(ms, s);
    }
    if Straight(ms[..|ms| - 1], s) {
      GrowStraight(ms, s);
    }
    if HasStartPair(ms[..|ms| - 1], s) && StartsAt(ms[|ms| - 1], s, 7) {
      CompleteStraight(ms, s);
    }
  }

  lemma GrowStraight(ms: seq<Mentsu>, s: Suit)
    requires ms != [] && Straight(ms[..|ms| - 1], s)
    ensures Straight(ms, s)
  {
    var init := ms[..|ms| - 1];
    var a, b, c :| 0 <= a < b < c < |init| && StartsAt(init[a], s, 1) && StartsAt(init[b], s, 4) && StartsAt(init[c], s, 7);
    assert StartsAt(ms[a], s, 1) && StartsAt(ms[b], s, 4) && StartsAt(ms[c], s, 7);
  }

  lemma CompleteStraight(ms: seq<Mentsu>, s: Suit)
    requires ms != [] && HasStartPair(ms[..|ms| - 1], s) && StartsAt(ms[|ms| - 1], s, 7)
    ensures Straight(ms, s)
  {
    var init := ms[..|ms| - 1];
    var a, b :| 0 <= a < b < |init| && StartsAt(init[a], s, 1) && StartsAt(init[b], s, 4);
    assert StartsAt(ms[a], s, 1) && StartsAt(ms[b], s, 4);
  }

  lemma ShrinkStraight(ms: seq<Mentsu>, s: Suit)
    requires ms != [] && Straight(ms, s)
    ensures Straight(ms[..|ms| - 1], s) || (HasStartPair(ms[..|ms| - 1], s) && StartsAt(ms[|ms| - 1], s, 7))
  {
    var a, b, c :| 0 <= a < b < c < |ms| && StartsAt(ms[a], s, 1) && StartsAt(ms[b], s, 4) && StartsAt(ms[c], s, 7);
    var n := |ms| - 1;
    if c < n {
      StraightBefore(ms, n, a, b, c, s);
    } else {
      assert c == n;
      StartPairBefore(ms, n, a, b, s);
      assert StartsAt(ms[n], s, 7);
    }
  }

  lemma StraightBefore(ms: seq<Mentsu>, n: nat, a: nat, b: nat, c: nat, s: Suit)
    requires a < b < c < n <= |ms|
    requires StartsAt(ms[a], s, 1) && StartsAt(ms[b], s, 4) && StartsAt(ms[c], s, 7)
    ensures Straight(ms[..n], s)
  {
    assert ms[..n][a] == ms[a] && ms[..n][b] == ms[b] && ms[..n][c] == ms[c];
  }

  lemma StartPairBefore(ms: seq<Mentsu>, n: nat, a: nat, b: nat, s: Suit)
    requires a < b < n <= |ms|
    requires StartsAt(ms[a], s, 1) && StartsAt(ms[b], s, 4)
    ensures HasStartPair(ms[..n], s)
  {
    assert ms[..n][a] == ms[a] && ms[..n][b] == ms[b];
  }

  /** Matching the starts 1, 4, 7 greedily finds a straight exactly when
      there is one: the counter is at least 1, 2 or 3 iff the hand holds
      the first one, two or three starts in order. */
  lemma {:induction false} ProgressMeaning(ms: seq<Mentsu>, s: Suit)
    ensures Progress(ms, s) >= 1 <==> HasStart(ms, s)
    ensures Progress(ms, s) >= 2 <==> HasStartPair(ms, s)
    ensures Progress(ms, s) >= 3 <==> Straight(ms, s)
  {
    if ms != [] {
      ProgressMeaning(ms[..|ms| - 1], s);
      ExtendStart(ms, s);
      ExtendStartPair(ms, s);
      ExtendStraight(ms, s);
    }
  }

  lemma StraightPrefix(ms: seq<Mentsu>, j: nat, s: Suit)
    requires j <= |ms| && Straight(ms[..j], s)
    ensures Straight(ms, s)
  {
    var a, b, c :| 0 <= a < b < c < j && StartsAt(ms[..j][a], s, 1) && StartsAt(ms[..j][b], s, 4) && StartsAt(ms[..j][c], s, 7);
    assert StartsAt(ms[a], s, 1) && StartsAt(ms[b], s, 4) && StartsAt(ms[c], s, 7);
  }

  /** The Ittsuu loop: per suit, `seqs` resets and counts the starts 1, 4,
      7 met in order. */
  method ScanIttsuu(h: seq<Mentsu>) returns (r: bool)
    ensures r == Ittsuu(h)
  {
    var suits := [Man, Pin, Sou, Honor];
    for si := 0 to 4
      invariant forall k | 0 <= k < si :: !Straight(h, suits[k])
    {
      var found := ScanSuit(h, suits[si]);
      if found {
        return true;
      }
    }
    assert !Straight(h, suits[0]) && !Straight(h, suits[1]) && !Straight(h, suits[2]) && !Straight(h, suits[3]);
    return false;
  }

  /** One pass of the Ittsuu loop over the groups for suit `s`. */
  method ScanSuit(h: seq<Mentsu>, s: Suit) returns (found: bool)
    ensures found == Straight(h, s)
  {
    var seqs := 0;
    for j := 0 to |h|
      invariant seqs == Progress(h[..j], s) && seqs < 3
    {
      var m := h[j];
      assert h[..j + 1][..j] == h[..j];
      if SuitOf(m) == s && m.kind.Sequence? && m.kind.first.value == seqs * 3 + 1 {
        seqs := seqs + 1;
        if seqs == 3 {
          ProgressMeaning(h[..j + 1], s);
          StraightPrefix(h, j + 1, s);
          return true;
        }
      }
    }
    assert h[..|h|] == h;
    ProgressMeaning(h, s);
    return false;
  }

  // ---------------------------------------------------------------------
  // The table
  // ---------------------------------------------------------------------

  /** The entries of `REGULAR_YAKU`, one function each. `windOf` stands
      for `Mentsu::wind`; Ryanpeikou and the two Sanshoku take their
      predicates as parameters. */
  function TanyaoYaku(): Yaku
  {
    Yaku("Tanyao", "All simples", 1, Illegal,
      (h: seq<Mentsu>, s: PlayerState) => Tanyao(h))
  }

  function MenzenTsumoYaku(): Yaku
  {
    Yaku("Menzen-tsumo", "Won by tsumo in menzenchin", 1, Illegal,
      (h: seq<Mentsu>, s: PlayerState) => MenzenTsumo(h))
  }

  function RoundWindYaku(windOf: Mentsu -> Option<Wind>): Yaku
  {
    Yaku("Yakuhai (Round wind)", "A triplet/quad of round wind tiles", 1, Full,
      (h: seq<Mentsu>, s: PlayerState) => WindYakuhai(h, s.roundWind, windOf))
  }

  function SeatWindYaku(windOf: Mentsu -> Option<Wind>): Yaku
  {
    Yaku("Yakuhai (Seat wind)", "A triplet/quad of seat wind tiles", 1, Full,
      (h: seq<Mentsu>, s: PlayerState) => WindYakuhai(h, s.seatWind, windOf))
  }

  function ChantaYaku(): Yaku
  {
    Yaku("Chanta", "All mentsu contain at least one terminal or honor", 2, Reduced,
      (h: seq<Mentsu>, s: PlayerState) => Chanta(h))
  }

  function JunchanYaku(): Yaku
  {
    Yaku("Junchan (incompatible w chanta)", "All mentsu contain at least one terminal", 3, Reduced,
      (h: seq<Mentsu>, s: PlayerState) => Junchan(h))
  }

  function PinfuYaku(): Yaku
  {
    Yaku("Pinfu", "Minimum fu; no triplets, non-yakuhai pair, and ryanmen wait", 1, Illegal, PinfuOn)
  }

  /** Pinfu as a yaku predicate: the player state is not consulted. */
  predicate PinfuOn(h: seq<Mentsu>, s: PlayerState)
    requires PinfuDefined(h)
  {
    Pinfu(h)
  }

  function WhiteDragonYaku(): Yaku
  {
    Yaku("Yakuhai (White Dragon)", "White dragon triplet", 1, Full,
      (h: seq<Mentsu>, s: PlayerState) => WhiteDragon(h))
  }

  function GreenDragonYaku(): Yaku
  {
    Yaku("Yakuhai (Green Dragon)", "Green dragon triplet", 1, Full,
      (h: seq<Mentsu>, s: PlayerState) => GreenDragon(h))
  }

  function RedDragonYaku(): Yaku
  {
    Yaku("Yakuhai (Red Dragon)", "Red dragon triplet", 2, Full,
      (h: seq<Mentsu>, s: PlayerState) => RedDragon(h))
  }

  function SanankouYaku(): Yaku
  {
    Yaku("Sanankou", "Three concealed triplets", 2, Full,
      (h: seq<Mentsu>, s: PlayerState) => Sanankou(h))
  }

  function RyanpeikouYaku(ryanpeikou: seq<Mentsu> -> bool): Yaku
  {
    Yaku("Ryanpeikou", "Twin identical sequences", 3, Illegal,
      (h: seq<Mentsu>, s: PlayerState) => ryanpeikou(h))
  }

  function IipeikouYaku(): Yaku
  {
    Yaku("Iipeikou", "Identical sequences", 1, Illegal,
      (h: seq<Mentsu>, s: PlayerState) => Iipeikou(h))
  }

  function DoukouYaku(sanshoku: (seq<Mentsu>, Mentsu -> bool) -> bool): Yaku
  {
    Yaku("Sanshoku doukou", "Three colors, same triplet", 2, Full,
      (h: seq<Mentsu>, s: PlayerState) => sanshoku(h, IsTriplet))
  }

  function DoujunYaku(sanshoku: (seq<Mentsu>, Mentsu -> bool) -> bool): Yaku
  {
    Yaku("Sanshoku doujun", "Three colors, same sequence", 2, Reduced,
      (h: seq<Mentsu>, s: PlayerState) => sanshoku(h, IsSequence))
  }

  function ToitoiYaku(): Yaku
  {
    Yaku("Toitoi", "All triplets", 2, Full,
      (h: seq<Mentsu>, s: PlayerState) => Toitoi(h))
  }

  function IttsuuYaku(): Yaku
  {
    Yaku("Ittsuu", "Pure straight", 2, Reduced,
      (h: seq<Mentsu>, s: PlayerState) => Ittsuu(h))
  }

  /** `REGULAR_YAKU` in its order. */
  function Entries(windOf: Mentsu -> Option<Wind>, ryanpeikou: seq<Mentsu> -> bool, sanshoku: (seq<Mentsu>, Mentsu -> bool) -> bool): seq<Yaku>
  {
    [ TanyaoYaku(),
      MenzenTsumoYaku(),
      RoundWindYaku(windOf),
      SeatWindYaku(windOf),
      ChantaYaku(),
      JunchanYaku(),
      PinfuYaku(),
      WhiteDragonYaku(),
      GreenDragonYaku(),
      RedDragonYaku(),
      SanankouYaku(),
      RyanpeikouYaku(ryanpeikou),
      IipeikouYaku(),
      DoukouYaku(sanshoku),
      DoujunYaku(sanshoku),
      ToitoiYaku(),
      IttsuuYaku()
    ]
  }

  /** The table with the corrected Ryanpeikou and Sanshoku, which the
      model scores with. */
  function Table(windOf: Mentsu -> Option<Wind>): seq<Yaku>
  {
    Entries(windOf, RyanpeikouFixed, SanshokuFixed)
  }

  /** The table as the source runs it. */
  function TableAsWritten(windOf: Mentsu -> Option<Wind>): seq<Yaku>
  {
    Entries(windOf, Ryanpeikou, Sanshoku)
  }

  /** The headings of the first four entries of `REGULAR_YAKU`: each
      one's name, description, han and open scoring. */
  lemma HeadingsFirst(windOf: Mentsu -> Option<Wind>)
    ensures Heading(TanyaoYaku()) == ("Tanyao", "All simples", 1, Illegal)
    ensures Heading(MenzenTsumoYaku()) == ("Menzen-tsumo", "Won by tsumo in menzenchin", 1, Illegal)
    ensures Heading(RoundWindYaku(windOf)) == ("Yakuhai (Round wind)", "A triplet/quad of round wind tiles", 1, Full)
    ensures Heading(SeatWindYaku(windOf)) == ("Yakuhai (Seat wind)", "A triplet/quad of seat wind tiles", 1, Full)
  {
  }

  /** The headings of entries four to seven of `REGULAR_YAKU`. */
  lemma HeadingsMiddle()
    ensures Heading(ChantaYaku()) == ("Chanta", "All mentsu contain at least one terminal or honor", 2, Reduced)
    ensures Heading(JunchanYaku()) == ("Junchan (incompatible w chanta)", "All mentsu contain at least one terminal", 3, Reduced)
    ensures Heading(PinfuYaku()) == ("Pinfu", "Minimum fu; no triplets, non-yakuhai pair, and ryanmen wait", 1, Illegal)
    ensures Heading(WhiteDragonYaku()) == ("Yakuhai (White Dragon)", "White dragon triplet", 1, Full)
  {
  }

  /** The headings of the last nine entries of `REGULAR_YAKU`. */
  lemma HeadingsRest(ry: seq<Mentsu> -> bool, sa: (seq<Mentsu>, Mentsu -> bool) -> bool)
    ensures Heading(GreenDragonYaku()) == ("Yakuhai (Green Dragon)", "Green dragon triplet", 1, Full)
    ensures Heading(RedDragonYaku()) == ("Yakuhai (Red Dragon)", "Red dragon triplet", 2, Full)
    ensures Heading(SanankouYaku()) == ("Sanankou", "Three concealed triplets", 2, Full)
    ensures Heading(RyanpeikouYaku(ry)) == ("Ryanpeikou", "Twin identical sequences", 3, Illegal)
    ensures Heading(IipeikouYaku()) == ("Iipeikou", "Identical sequences", 1, Illegal)
    ensures Heading(DoukouYaku(sa)) == ("Sanshoku doukou", "Three colors, same triplet", 2, Full)
    ensures Heading(DoujunYaku(sa)) == ("Sanshoku doujun", "Three colors, same sequence", 2, Reduced)
    ensures Heading(ToitoiYaku()) == ("Toitoi", "All triplets", 2, Full)
    ensures Heading(IttsuuYaku()) == ("Ittsuu", "Pure straight", 2, Reduced)
  {
  }

  /** What `valid_for` applies for Tanyao, Menzen-tsumo, Chanta and
      Junchan. */
  lemma MeaningPlain(h: seq<Mentsu>, s: PlayerState)
    ensures ValidFor(TanyaoYaku(), h, s) == Tanyao(h)
    ensures ValidFor(MenzenTsumoYaku(), h, s) == MenzenTsumo(h)
    ensures ValidFor(ChantaYaku(), h, s) == Chanta(h)
    ensures ValidFor(JunchanYaku(), h, s) == Junchan(h)
  {
  }

  /** What `valid_for` applies for the two wind yakuhai. */
  lemma MeaningWinds(windOf: Mentsu -> Option<Wind>, h: seq<Mentsu>, s: PlayerState)
    ensures ValidFor(RoundWindYaku(windOf), h, s) == WindYakuhai(h, s.roundWind, windOf)
    ensures ValidFor(SeatWindYaku(windOf), h, s) == WindYakuhai(h, s.seatWind, windOf)
  {
  }

  /** Pinfu is defined exactly where its `unwrap` finds a pair, and then
      applies `Pinfu`. */
  lemma MeaningPinfu(h: seq<Mentsu>, s: PlayerState)
    ensures PinfuYaku().f.requires(h, s) <==> PinfuDefined(h)
    ensures PinfuDefined(h) ==> (ValidFor(PinfuYaku(), h, s) <==> Pinfu(h))
  {
    assert PinfuOn.requires(h, s) == PinfuDefined(h);
  }

  /** What `valid_for` applies for the dragon yakuhai and Sanankou. */
  lemma MeaningTriplets(h: seq<Mentsu>, s: PlayerState)
    ensures ValidFor(WhiteDragonYaku(), h, s) == WhiteDragon(h)
    ensures ValidFor(GreenDragonYaku(), h, s) == GreenDragon(h)
    ensures ValidFor(RedDragonYaku(), h, s) == RedDragon(h)
    ensures ValidFor(SanankouYaku(), h, s) == Sanankou(h)
  {
  }

  /** What `valid_for` applies for Ryanpeikou, Iipeikou, the two Sanshoku,
      Toitoi and Ittsuu. */
  lemma MeaningPatterns(ry: seq<Mentsu> -> bool, sa: (seq<Mentsu>, Mentsu -> bool) -> bool, h: seq<Mentsu>, s: PlayerState)
    ensures ValidFor(RyanpeikouYaku(ry), h, s) == ry(h)
    ensures ValidFor(IipeikouYaku(), h, s) == Iipeikou(h)
    ensures ValidFor(DoukouYaku(sa), h, s) == sa(h, IsTriplet)
    ensures ValidFor(DoujunYaku(sa), h, s) == sa(h, IsSequence)
    ensures ValidFor(ToitoiYaku(), h, s) == Toitoi(h)
    ensures ValidFor(IttsuuYaku(), h, s) == Ittsuu(h)
  {
  }

  /** Where Ryanpeikou and the two Sanshoku sit in `Entries`. */
  lemma PatternPositions(windOf: Mentsu -> Option<Wind>, ry: seq<Mentsu> -> bool,
                         sa: (seq<Mentsu>, Mentsu -> bool) -> bool)
    ensures |Entries(windOf, ry, sa)| == 17
    ensures Entries(windOf, ry, sa)[11] == RyanpeikouYaku(ry)
    ensures Entries(windOf, ry, sa)[13] == DoukouYaku(sa)
    ensures Entries(windOf, ry, sa)[14] == DoujunYaku(sa)
  {
  }

  /** Both tables hold the seventeen entries of `Entries`; they differ in
      what Ryanpeikou (entry 11) and the two Sanshoku (entries 13 and 14)
      apply. */
  lemma TablesDiffer(windOf: Mentsu -> Option<Wind>, h: seq<Mentsu>, s: PlayerState)
    ensures |Table(windOf)| == |TableAsWritten(windOf)| == 17
    ensures ValidFor(Table(windOf)[11], h, s) == RyanpeikouFixed(h)
    ensures ValidFor(TableAsWritten(windOf)[11], h, s) == Ryanpeikou(h)
    ensures ValidFor(Table(windOf)[13], h, s) == SanshokuFixed(h, IsTriplet)
    ensures ValidFor(TableAsWritten(windOf)[13], h, s) == Sanshoku(h, IsTriplet)
    ensures ValidFor(Table(windOf)[14], h, s) == SanshokuFixed(h, IsSequence)
    ensures ValidFor(TableAsWritten(windOf)[14], h, s) == Sanshoku(h, IsSequence)
  {
    PatternPositions(windOf, RyanpeikouFixed, SanshokuFixed);
    PatternPositions(windOf, Ryanpeikou, Sanshoku);
    MeaningPatterns(RyanpeikouFixed, SanshokuFixed, h, s);
    MeaningPatterns(Ryanpeikou, Sanshoku, h, s);
  }
}
