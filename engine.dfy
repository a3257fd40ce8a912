/** `build` (src/parser/i13s.rs): count the tiles, enumerate every way of
    grouping them, keep the winning groupings, and annotate the group that
    holds the winning tile with its wait. */
module Engine {
  import opened Wrappers
  import opened Tiles
  import opened Kinds
  import opened Waits
  import opened Mentsus
  import opened Counts
  import opened Counting
  import Sorting

  /** `unimplemented!()`: the winning tile completes a quad. */
  datatype BuildError = QuadWait

  // ---------------------------------------------------------------- counting

  /** The counts of a tile list, as `or_insert(1)` / `+= 1` build them. */
  function Tally(tiles: seq<Tile>): (c: Counts)
    ensures Ordered(c) && Contents(c) == multiset(tiles)
  {
    if tiles == [] then []
    else
      var n := |tiles| - 1;
      assert tiles == tiles[..n] + [tiles[n]];
      Increment(Tally(tiles[..n]), tiles[n])
  }

  method CountTiles(tiles: seq<Tile>) returns (c: Counts)
    ensures c == Tally(tiles)
  {
    c := [];
    for k := 0 to |tiles|
      invariant c == Tally(tiles[..k])
    {
      assert tiles[..k + 1][..k] == tiles[..k];
      c := Increment(c, tiles[k]);
    }
    assert tiles[..|tiles|] == tiles;
  }

  // ------------------------------------------------------------- enumeration

  /** `with`: the groups so far, plus one. */
  function With(v: seq<Mentsu>, m: Mentsu): (r: seq<Mentsu>)
    ensures |r| == |v| + 1 && r[..|v|] == v && r[|v|] == m
  {
    v + [m]
  }

  /** The tile slice `rec_build` hands to `decrement` for a group. */
  function Consumed(k: Kind): (ts: seq<Tile>)
    ensures multiset(ts) == Members(k)
    ensures |ts| >= 2
  {
    match k
    case Pair(t) => [t, t]
    case Triplet(t) => [t, t, t]
    case Quad(t) => [t, t, t, t]
    case Sequence(a, b, d) => [a, b, d]
  }

  /** `t.is_some_and(|t| counts.get(&t).is_some_and(|v| *v >= 1))`. */
  predicate Present(c: Counts, t: Option<Tile>)
  {
    t.Some? && Get(c, t.value).Some? && Get(c, t.value).value >= 1
  }

  /** The guard of the sequence branch. */
  predicate SequenceFits(c: Counts, t: Tile)
  {
    Present(c, Add(t, 1)) && Present(c, Add(t, 2))
  }

  /** The sequence starting at `t`, as the sequence branch builds it. */
  function SequenceFrom(t: Tile): Kind
    requires Add(t, 2).Some?
  {
    Sequence(t, Add(t, 1).value, Add(t, 2).value)
  }

  /** A group whose tiles are all keys with counts high enough to take it. */
  predicate Takeable(c: Counts, k: Kind)
  {
    Enough(c, Consumed(k)) && forall t | t in Consumed(k) :: Get(c, t).Some?
  }

  /** A pair, triplet or quad of the tile at a nonzero entry can be taken
      when the entry counts at least as many copies. */
  lemma TakeSame(c: Counts, i: nat, k: Kind)
    requires Ordered(c) && i < |c|
    requires k == Pair(c[i].0) || k == Triplet(c[i].0) || k == Quad(c[i].0)
    ensures c[i].1 >= |Members(k)| ==> Takeable(c, k)
  {
    if c[i].1 < |Members(k)| {
      return;
    }
    var t := c[i].0;
    GetAt(c, i);
    assert multiset(Consumed(k))[t] <= c[i].1;
    forall m | 0 <= m < |c|
      ensures multiset(Consumed(k))[c[m].0] <= c[m].1
    {
      if c[m].0 == t {
        KeyUnique(c, m, i);
      } else {
        assert multiset(Consumed(k))[c[m].0] == 0;
      }
    }
  }

  /** The sequence branch's guard makes its decrement safe. */
  lemma TakeSequence(c: Counts, i: nat)
    requires Ordered(c) && i < |c| && c[i].1 > 0 && SequenceFits(c, c[i].0)
    ensures Takeable(c, SequenceFrom(c[i].0))
  {
    var t := c[i].0;
    var s := SequenceFrom(t);
    GetAt(c, i);
    AddProperties(t, 1);
    AddProperties(t, 2);
    var t1, t2 := Add(t, 1).value, Add(t, 2).value;
    assert t != t1 && t != t2 && t1 != t2;
    var m1 :| 0 <= m1 < |c| && c[m1] == (t1, Get(c, t1).value);
    var m2 :| 0 <= m2 < |c| && c[m2] == (t2, Get(c, t2).value);
    var ts := Consumed(s);
    assert ts == [c[i].0, c[m1].0, c[m2].0];
    ThreeEnough(c, i, m1, m2);
  }

  /** Three distinct keys with nonzero counts can each be taken once. */
  lemma ThreeEnough(c: Counts, i: nat, m1: nat, m2: nat)
    requires Ordered(c) && i < |c| && m1 < |c| && m2 < |c|
    requires c[i].0 != c[m1].0 && c[i].0 != c[m2].0 && c[m1].0 != c[m2].0
    requires c[i].1 > 0 && c[m1].1 > 0 && c[m2].1 > 0
    ensures Enough(c, [c[i].0, c[m1].0, c[m2].0])
    ensures forall u | u in [c[i].0, c[m1].0, c[m2].0] :: Get(c, u).Some?
  {
    forall m | 0 <= m < |c|
      ensures multiset([c[i].0, c[m1].0, c[m2].0])[c[m].0] <= c[m].1
    {
      var u := c[m].0;
      if u == c[i].0 {
        KeyUnique(c, m, i);
      } else if u == c[m1].0 {
        KeyUnique(c, m, m1);
      } else if u == c[m2].0 {
        KeyUnique(c, m, m2);
      }
    }
    GetAt(c, i);
    GetAt(c, m1);
    GetAt(c, m2);
  }

  /** `rec_build(counts, i, mentsu_rn)`: every completion of `prefix` by
      groups taken from the counts, trying at each nonzero entry a pair, a
      triplet, a quad and a sequence starting there, in that order. */
  function Enumerate(c: Counts, i: nat, prefix: seq<Mentsu>): seq<seq<Mentsu>>
    requires Ordered(c) && i <= |c|
    decreases Total(c), |c| - i, 2
  {
    if i == |c| then [prefix]
    else if c[i].1 == 0 then Enumerate(c, i + 1, prefix)
    else
      var t := c[i].0;
      TakeSame(c, i, Pair(t));
      TakeSame(c, i, Triplet(t));
      TakeSame(c, i, Quad(t));
      Try(c, i, prefix, Pair(t), c[i].1 >= 2)
      + Try(c, i, prefix, Triplet(t), c[i].1 >= 3)
      + Try(c, i, prefix, Quad(t), c[i].1 >= 4)
      + SequenceBranch(c, i, prefix)
  }

  /** The sequence branch, taken when `t.add(1)` and `t.add(2)` are present. */
  function SequenceBranch(c: Counts, i: nat, prefix: seq<Mentsu>): seq<seq<Mentsu>>
    requires Ordered(c) && i < |c| && c[i].1 > 0
    decreases Total(c), |c| - i, 1
  {
    if SequenceFits(c, c[i].0) then
      TakeSequence(c, i);
      Branch(c, i, prefix, SequenceFrom(c[i].0))
    else []
  }

  /** A branch taken only when its guard `ok` holds. */
  function Try(c: Counts, i: nat, prefix: seq<Mentsu>, k: Kind, ok: bool): seq<seq<Mentsu>>
    requires Ordered(c) && i < |c| && (ok ==> Takeable(c, k))
    decreases Total(c), |c| - i, 1
  {
    if ok then Branch(c, i, prefix, k) else []
  }

  /** One branch: take group `k` out of the counts and recurse at `i`. */
  function Branch(c: Counts, i: nat, prefix: seq<Mentsu>, k: Kind): seq<seq<Mentsu>>
    requires Ordered(c) && i < |c| && Takeable(c, k)
    decreases Total(c), |c| - i, 0
  {
    DecrementedContents(c, Consumed(k));
    Enumerate(Decremented(c, Consumed(k)), i, With(prefix, New(k)))
  }

  /** `for m in sub { ans.push(m) }`. */
  method PushAll<T>(ans: seq<T>, sub: seq<T>) returns (r: seq<T>)
    ensures r == ans + sub
  {
    r := ans;
    for j := 0 to |sub|
      invariant r == ans + sub[..j]
    {
      assert sub[..j + 1] == sub[..j] + [sub[j]];
      r := r + [sub[j]];
    }
    assert sub[..|sub|] == sub;
  }

  method RecBuild(c: Counts, i: nat, prefix: seq<Mentsu>) returns (ans: seq<seq<Mentsu>>)
    requires Ordered(c) && i <= |c|
    ensures ans == Enumerate(c, i, prefix)
    decreases Total(c), |c| - i, 2
  {
    ans := [];
    if i == |c| {
      return [prefix];
    }
    var t, count := c[i].0, c[i].1;
    if count == 0 {
      ans := RecBuild(c, i + 1, prefix);
      return;
    }
    TakeSame(c, i, Pair(t));
    TakeSame(c, i, Triplet(t));
    TakeSame(c, i, Quad(t));
    var pairs := TryThenBuild(c, i, prefix, Pair(t), count >= 2);
    ans := PushAll(ans, pairs);
    assert ans == pairs;
    var triplets := TryThenBuild(c, i, prefix, Triplet(t), count >= 3);
    ans := PushAll(ans, triplets);
    var quads := TryThenBuild(c, i, prefix, Quad(t), count >= 4);
    ans := PushAll(ans, quads);
    var sequences := SequenceThenBuild(c, i, prefix);
    ans := PushAll(ans, sequences);
    assert Enumerate(c, i, prefix) == pairs + triplets + quads + sequences;
  }

  /** One `if` of `rec_build`: the branch for group `k` when its guard holds. */
  method TryThenBuild(c: Counts, i: nat, prefix: seq<Mentsu>, k: Kind, ok: bool) returns (sub: seq<seq<Mentsu>>)
    requires Ordered(c) && i < |c| && (ok ==> Takeable(c, k))
    ensures sub == Try(c, i, prefix, k, ok)
    decreases Total(c), |c| - i, 1
  {
    sub := [];
    if ok {
      sub := TakeThenBuild(c, i, prefix, k);
    }
  }

  /** The sequence `if` of `rec_build`: both successors present. */
  method SequenceThenBuild(c: Counts, i: nat, prefix: seq<Mentsu>) returns (sub: seq<seq<Mentsu>>)
    requires Ordered(c) && i < |c| && c[i].1 > 0
    ensures sub == SequenceBranch(c, i, prefix)
    decreases Total(c), |c| - i, 1
  {
    var t := c[i].0;
    sub := [];
    if Present(c, Add(t, 1)) && Present(c, Add(t, 2)) {
      TakeSequence(c, i);
      sub := TakeThenBuild(c, i, prefix, Sequence(t, Add(t, 1).value, Add(t, 2).value));
    }
  }

  /** `rec_build(&decrement(counts, tiles), i, &with(mentsu_rn, Mentsu::new(k)))`. */
  method TakeThenBuild(c: Counts, i: nat, prefix: seq<Mentsu>, k: Kind) returns (sub: seq<seq<Mentsu>>)
    requires Ordered(c) && i < |c| && Takeable(c, k)
    ensures sub == Branch(c, i, prefix, k)
    decreases Total(c), |c| - i, 0
  {
    DecrementedContents(c, Consumed(k));
    var d := Decrement(c, Consumed(k));
    sub := RecBuild(d, i, With(prefix, New(k)));
  }

  // ----------------------------------------------------------------- winning

  /** A triplet, quad or sequence: the four "bodies" of a winning hand. */
  predicate IsBody(m: Mentsu)
  {
    m.kind.Triplet? || m.kind.Quad? || m.kind.Sequence?
  }

  /** The `retain` condition: four bodies and one pair. */
  predicate IsWinning(h: seq<Mentsu>)
  {
    CountIf(h, IsBody) == 4 && CountIf(h, IsPair) == 1
  }

  /** `basic.retain(...)`: the winning groupings, in their order. */
  function Winning(hs: seq<seq<Mentsu>>): (r: seq<seq<Mentsu>>)
    ensures |r| <= |hs|
    ensures forall h :: h in r <==> h in hs && IsWinning(h)
  {
    if hs == [] then []
    else
      var rest := Winning(hs[1..]);
      assert forall h :: h in hs <==> h == hs[0] || h in hs[1..];
      if IsWinning(hs[0]) then [hs[0]] + rest else rest
  }

  method RetainWinning(hs: seq<seq<Mentsu>>) returns (kept: seq<seq<Mentsu>>)
    ensures kept == Winning(hs)
  {
    kept := [];
    var j := |hs|;
    while j > 0
      invariant 0 <= j <= |hs|
      invariant kept == Winning(hs[j..])
      decreases j
    {
      j := j - 1;
      assert hs[j..][1..] == hs[j + 1..];
      if IsWinning(hs[j]) {
        kept := [hs[j]] + kept;
      }
    }
    assert hs[0..] == hs;
  }

  // ------------------------------------------------------------- annotation

  /** The wait the match in `basic_to_open` assigns to a group holding `w`;
      `None` for a quad, where the source stops with `unimplemented!()`. */
  function WaitFor(k: Kind, w: Tile): Option<WinWait>
  {
    match k
    case Pair(_) => Some(Tanki)
    case Triplet(_) => Some(Shanpon)
    case Sequence(left, mid, right) =>
      if w == mid then Some(Kanchan)
      else if (w == left && Terminal(right)) || (w == right && Terminal(left)) then Some(Penchan)
      else Some(Ryanmen)
    case Quad(_) => None
  }

  /** Group `m` opened on a ron and given the wait for `w`. */
  function Annotate(m: Mentsu, w: Tile, how: WinMethod): Mentsu
  {
    SetWinWait(if how == Ron then SetOpen(m, true) else m, WaitFor(m.kind, w))
  }

  /** The copy of a hand with group `i` annotated. */
  function Variant(h: seq<Mentsu>, i: nat, w: Tile, how: WinMethod): seq<Mentsu>
    requires i < |h|
  {
    h[i := Annotate(h[i], w, how)]
  }

  /** `h.sort()` under the derived order of `Mentsu`. */
  function SortHand(h: seq<Mentsu>): seq<Mentsu>
  {
    Sorting.Sort(h, Mentsus.Less)
  }

  /** The sorted hand is a sorted permutation of the hand. */
  lemma SortHandCorrect(h: seq<Mentsu>)
    ensures Sorting.Sorted(SortHand(h), Mentsus.Less) && multiset(SortHand(h)) == multiset(h)
  {
    MentsuOrder();
    Sorting.SortCorrect(h, Mentsus.Less);
  }

  lemma MentsuOrder()
    ensures Sorting.StrictTotalOrder(Mentsus.Less)
  {
    forall a: Mentsu, b: Mentsu, c: Mentsu {
      Mentsus.LessIsStrictTotalOrder(a, b, c);
    }
  }

  /** Some group among the first `n` of `h` is a quad holding `w`. */
  predicate QuadHit(h: seq<Mentsu>, n: nat, w: Tile)
    requires n <= |h|
  {
    exists j | 0 <= j < n :: Contains(h[j], w) && h[j].kind.Quad?
  }

  /** Some hand among the first `p` of `hs` has a quad holding `w`. */
  predicate AnyQuadHit(hs: seq<seq<Mentsu>>, p: nat, w: Tile)
    requires p <= |hs|
  {
    exists q | 0 <= q < p :: QuadHit(hs[q], |hs[q]|, w)
  }

  /** The sorted variants of `h` for its first `n` groups holding `w`. */
  function VariantsOf(h: seq<Mentsu>, n: nat, w: Tile, how: WinMethod): set<seq<Mentsu>>
    requires n <= |h|
  {
    if n == 0 then {}
    else
      VariantsOf(h, n - 1, w, how)
      + if Contains(h[n - 1], w) then {SortHand(Variant(h, n - 1, w, how))} else {}
  }

  /** The union of `VariantsOf` over the first `p` hands. */
  function AllVariants(hs: seq<seq<Mentsu>>, p: nat, w: Tile, how: WinMethod): set<seq<Mentsu>>
    requires p <= |hs|
  {
    if p == 0 then {} else AllVariants(hs, p - 1, w, how) + VariantsOf(hs[p - 1], |hs[p - 1]|, w, how)
  }

  /** What `basic_to_open` returns: the deduplicated variants, or the
      failure on a quad wait. */
  function Annotated(hs: seq<seq<Mentsu>>, w: Tile, how: WinMethod): Result<set<seq<Mentsu>>, BuildError>
  {
    if AnyQuadHit(hs, |hs|, w) then Failure(QuadWait) else Success(AllVariants(hs, |hs|, w, how))
  }

  /** The body of the `if m.contains(win_tile)` block: the copy of the hand
      with group `i` opened on a ron and given its wait. */
  method OpenAt(hand: seq<Mentsu>, i: nat, w: Tile, how: WinMethod) returns (r: Result<seq<Mentsu>, BuildError>)
    requires i < |hand|
    ensures r.Failure? <==> hand[i].kind.Quad?
    ensures r.Success? ==> r.value == Variant(hand, i, w, how)
  {
    var h := hand;
    if how == Ron {
      h := h[i := SetOpen(h[i], true)];
    }
    match hand[i].kind {
      case Pair(_) =>
        h := h[i := SetWinWait(h[i], Some(Tanki))];
      case Triplet(_) =>
        h := h[i := SetWinWait(h[i], Some(Shanpon))];
      case Sequence(left, mid, right) =>
        if w == mid {
          h := h[i := SetWinWait(h[i], Some(Kanchan))];
        } else if (w == left && Terminal(right)) || (w == right && Terminal(left)) {
          h := h[i := SetWinWait(h[i], Some(Penchan))];
        } else {
          h := h[i := SetWinWait(h[i], Some(Ryanmen))];
        }
      case Quad(_) =>
        return Failure(QuadWait);
    }
    return Success(h);
  }

  method BasicToOpen(hs: seq<seq<Mentsu>>, w: Tile, how: WinMethod)
    returns (r: Result<set<seq<Mentsu>>, BuildError>)
    ensures r == Annotated(hs, w, how)
  {
    var ans: set<seq<Mentsu>> := {};
    for p := 0 to |hs|
      invariant !AnyQuadHit(hs, p, w)
      invariant ans == AllVariants(hs, p, w, how)
    {
      var hand := hs[p];
      for i := 0 to |hand|
        invariant !QuadHit(hand, i, w)
        invariant ans == AllVariants(hs, p, w, how) + VariantsOf(hand, i, w, how)
      {
        if Contains(hand[i], w) {
          var h := OpenAt(hand, i, w, how);
          if h.Failure? {
            assert QuadHit(hs[p], |hs[p]|, w);
            return Failure(QuadWait);
          }
          var sorted := SortHand(h.value);
          ans := ans + {sorted};
        }
        assert VariantsOf(hand, i + 1, w, how) == VariantsOf(hand, i, w, how)
          + if Contains(hand[i], w) then {SortHand(Variant(hand, i, w, how))} else {};
      }
      assert AllVariants(hs, p + 1, w, how) == AllVariants(hs, p, w, how) + VariantsOf(hand, |hand|, w, how);
    }
    return Success(ans);
  }

  /** `build`: counting, enumeration, the winning filter and annotation. */
  function BuildSpec(tiles: seq<Tile>, w: Tile, how: WinMethod): Result<set<seq<Mentsu>>, BuildError>
  {
    Annotated(Winning(Enumerate(Tally(tiles), 0, [])), w, how)
  }

  method Build(tiles: seq<Tile>, w: Tile, how: WinMethod) returns (r: Result<set<seq<Mentsu>>, BuildError>)
    ensures r == BuildSpec(tiles, w, how)
  {
    var counts := CountTiles(tiles);
    var basic := RecBuild(counts, 0, []);
    basic := RetainWinning(basic);
    r := BasicToOpen(basic, w, how);
  }
}
