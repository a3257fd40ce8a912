/** The yaku judged on the bare tiles of a hand (src/yaku/weird.rs). */
module Weird {
  import opened Suits
  import opened Tiles
  import opened YakuTable

  /** `filter(|(j, o)| *j != i && *o == t).count()`: how many other
      positions hold the tile at position `i`. */
  method CountOthers(ts: seq<Tile>, i: nat) returns (n: nat)
    requires i < |ts|
    ensures n == multiset(ts)[ts[i]] - 1
  {
    n := 0;
    for j := 0 to |ts|
      invariant n == multiset(ts[..j])[ts[i]] - (if i < j then 1 else 0)
    {
      assert ts[..j + 1] == ts[..j] + [ts[j]];
      if j != i && ts[j] == ts[i] {
        n := n + 1;
      }
    }
    assert ts[..|ts|] == ts;
  }

  /** Some other position holds the tile at `i` when it occurs twice. */
  lemma OtherCopy(ts: seq<Tile>, i: nat) returns (p: nat)
    requires i < |ts| && multiset(ts)[ts[i]] >= 2
    ensures p < |ts| && p != i && ts[p] == ts[i]
  {
    var rest := ts[..i] + ts[i + 1..];
    assert ts == ts[..i] + [ts[i]] + ts[i + 1..];
    assert multiset(ts) == multiset(rest) + multiset{ts[i]};
    assert ts[i] in multiset(rest);
    var q :| 0 <= q < |rest| && rest[q] == ts[i];
    p := if q < i then q else q + 1;
  }

  /** Two positions holding the same tile make it occur twice. */
  lemma TwoCopies(ts: seq<Tile>, k: nat, p: nat)
    requires k < |ts| && p < |ts| && k != p && ts[k] == ts[p]
    ensures multiset(ts)[ts[k]] >= 2
  {
    var lo, hi := if k < p then k else p, if k < p then p else k;
    assert ts == ts[..lo] + [ts[lo]] + ts[lo + 1..hi] + [ts[hi]] + ts[hi + 1..];
  }

  // ---------------------------------------------------------------------
  // Chiitoi
  // ---------------------------------------------------------------------

  /** Seven pairs as the loop checks it: every position has exactly one
      other position with the same tile. */
  predicate Chiitoi(ts: seq<Tile>)
  {
    forall i | 0 <= i < |ts| :: multiset(ts)[ts[i]] == 2
  }

  /** The Chiitoi loop, returning false at the first tile without exactly
      one other copy. */
  method ScanChiitoi(ts: seq<Tile>) returns (r: bool)
    ensures r == Chiitoi(ts)
  {
    for i := 0 to |ts|
      invariant forall k | 0 <= k < i :: multiset(ts)[ts[k]] == 2
    {
      var n := CountOthers(ts, i);
      if n != 1 {
        return false;
      }
    }
    return true;
  }

  /** A multiset of pairs has an even size. */
  lemma {:induction false} PairsEven(m: multiset<Tile>)
    requires forall t | t in m :: m[t] == 2
    ensures |m| % 2 == 0
    decreases |m|
  {
    if m != multiset{} {
      var t :| t in m;
      var rest := m[t := 0];
      assert m == rest + multiset{t, t};
      forall u | u in rest
        ensures rest[u] == 2
      {
        assert u != t && m[u] == rest[u];
      }
      PairsEven(rest);
    }
  }

  /** Chiitoi holds on no tiles at all; when it holds, every distinct tile
      occurs exactly twice, so the number of tiles is even. The loop does
      not check that there are seven pairs. */
  lemma ChiitoiPairs(ts: seq<Tile>)
    ensures Chiitoi([])
    ensures Chiitoi(ts) <==> forall t | t in multiset(ts) :: multiset(ts)[t] == 2
    ensures Chiitoi(ts) ==> |ts| % 2 == 0
  {
    if forall t | t in multiset(ts) :: multiset(ts)[t] == 2 {
      forall i | 0 <= i < |ts|
        ensures multiset(ts)[ts[i]] == 2
      {
        assert ts[i] in multiset(ts);
      }
    }
    if Chiitoi(ts) {
      forall t | t in multiset(ts)
        ensures multiset(ts)[t] == 2
      {
        var i :| 0 <= i < |ts| && ts[i] == t;
      }
      PairsEven(multiset(ts));
    }
  }

  // ---------------------------------------------------------------------
  // Kokushi musou
  // ---------------------------------------------------------------------

  /** The Kokushi loop as written. A simple tile, a tile with two or more
      other copies, or a second tile with exactly one other copy returns
      false, and the result is `found_pair`. Both copies of a duplicated
      tile see exactly one other copy, so the second of them always
      returns false: the loop accepts nothing. */
  method ScanKokushi(ts: seq<Tile>) returns (r: bool)
    ensures !r
  {
    var foundPair := false;
    for i := 0 to |ts|
      // the copy that set `found_pair` has its partner still ahead
      invariant foundPair ==> exists k, p | 0 <= k < i <= p < |ts| :: k != p && ts[p] == ts[k]
      invariant forall k | 0 <= k < i :: multiset(ts)[ts[k]] == 2 ==> foundPair
    {
      if Simple(ts[i]) {
        return false;
      }
      if foundPair {
        var k, p :| 0 <= k < i <= p < |ts| && k != p && ts[p] == ts[k];
        if p == i {
          TwoCopies(ts, k, p);
        }
      }
      var n := CountOthers(ts, i);
      if n == 1 {
        if foundPair {
          return false;
        }
        var p := OtherCopy(ts, i);
        foundPair := true;
      } else if n != 0 {
        return false;
      }
    }
    return foundPair;
  }

  /** Thirteen orphans as the loop evidently means it: no simple tile, no
      tile three or more times, and exactly one tile twice. */
  predicate Kokushi(ts: seq<Tile>)
  {
    (forall i | 0 <= i < |ts| :: !Simple(ts[i]) && multiset(ts)[ts[i]] <= 2) &&
    (exists i | 0 <= i < |ts| :: multiset(ts)[ts[i]] == 2) &&
    (forall i, j | 0 <= i < |ts| && 0 <= j < |ts| ::
      multiset(ts)[ts[i]] == 2 && multiset(ts)[ts[j]] == 2 ==> ts[i] == ts[j])
  }

  /** What the corrected loop has established after `i` positions: no
      simple tile and no tile three or more times so far, `found` tells
      whether a doubled tile was met, and all doubled tiles met agree. */
  ghost predicate KokushiPrefix(ts: seq<Tile>, i: nat, found: bool)
    requires i <= |ts|
  {
    && (forall k | 0 <= k < i :: !Simple(ts[k]) && multiset(ts)[ts[k]] <= 2)
    && (found <==> exists k | 0 <= k < i :: multiset(ts)[ts[k]] == 2)
    && (forall k, l | 0 <= k < i && 0 <= l < i ::
          multiset(ts)[ts[k]] == 2 && multiset(ts)[ts[l]] == 2 ==> ts[k] == ts[l])
  }

  /** The loop with the pair counted once: only the first copy of a
      duplicated tile sets `found_pair`. */
  method ScanKokushiFixed(ts: seq<Tile>) returns (r: bool)
    ensures r == Kokushi(ts)
  {
    var foundPair := false;
    for i := 0 to |ts|
      invariant KokushiPrefix(ts, i, foundPair)
    {
      if Simple(ts[i]) {
        return false;
      }
      var n := CountOthers(ts, i);
      if n == 1 {
        if ts[i] in ts[..i] {
          KokushiCopy(ts, i, foundPair);
        } else {
          if foundPair {
            KokushiSecondPair(ts, i);
            return false;
          }
          KokushiFirstPair(ts, i);
          foundPair := true;
        }
      } else if n != 0 {
        return false;
      } else {
        KokushiSingle(ts, i, foundPair);
      }
    }
    KokushiDone(ts, foundPair);
    return foundPair;
  }

  /** A tile met once moves the loop on. */
  lemma KokushiSingle(ts: seq<Tile>, i: nat, found: bool)
    requires i < |ts| && KokushiPrefix(ts, i, found)
    requires !Simple(ts[i]) && multiset(ts)[ts[i]] == 1
    ensures KokushiPrefix(ts, i + 1, found)
  {
  }

  /** The second copy of the doubled tile moves the loop on. */
  lemma KokushiCopy(ts: seq<Tile>, i: nat, found: bool)
    requires i < |ts| && KokushiPrefix(ts, i, found)
    requires !Simple(ts[i]) && multiset(ts)[ts[i]] == 2 && ts[i] in ts[..i]
    ensures KokushiPrefix(ts, i + 1, found)
  {
    var k :| 0 <= k < i && ts[..i][k] == ts[i];
    assert ts[k] == ts[i];
    forall l | 0 <= l < i + 1 && multiset(ts)[ts[l]] == 2
      ensures ts[l] == ts[i]
    {
    }
  }

  /** The first copy of the first doubled tile sets `found_pair`. */
  lemma KokushiFirstPair(ts: seq<Tile>, i: nat)
    requires i < |ts| && KokushiPrefix(ts, i, false)
    requires !Simple(ts[i]) && multiset(ts)[ts[i]] == 2
    ensures KokushiPrefix(ts, i + 1, true)
  {
  }

  /** A second doubled tile rules out thirteen orphans. */
  lemma KokushiSecondPair(ts: seq<Tile>, i: nat)
    requires i < |ts| && KokushiPrefix(ts, i, true)
    requires multiset(ts)[ts[i]] == 2 && ts[i] !in ts[..i]
    ensures !Kokushi(ts)
  {
    var k :| 0 <= k < i && multiset(ts)[ts[k]] == 2;
    assert ts[..i][k] == ts[k];
  }

  /** Once every position passed, `found_pair` is the verdict. */
  lemma KokushiDone(ts: seq<Tile>, found: bool)
    requires KokushiPrefix(ts, |ts|, found)
    ensures found == Kokushi(ts)
  {
  }

  /** The thirteen terminals and honors: 1 and 9 of Man, Pin and Sou, then
      the seven honors. */
  function OrphanAt(i: nat): Tile
    requires i < 13
  {
    if i < 6 then Tile(if i % 2 == 0 then 1 else 9, if i < 2 then Man else if i < 4 then Pin else Sou)
    else Tile(i - 5, Honor)
  }

  /** The thirteen orphans with a second 1m. */
  function ThirteenOrphans(): seq<Tile>
  {
    seq(13, i requires 0 <= i < 13 => OrphanAt(i)) + [Tile(1, Man)]
  }

  /** A tile no other position holds occurs once. */
  lemma Unique(ts: seq<Tile>, i: nat)
    requires i < |ts|
    requires forall p | 0 <= p < |ts| && p != i :: ts[p] != ts[i]
    ensures multiset(ts)[ts[i]] == 1
  {
    assert ts == ts[..i] + [ts[i]] + ts[i + 1..];
    assert ts[i] !in ts[..i];
    assert ts[i] !in ts[i + 1..];
  }

  /** The corrected Kokushi accepts the thirteen orphans, which the loop
      as written rejects like every other hand. */
  lemma ThirteenOrphansAccepted()
    ensures Kokushi(ThirteenOrphans())
  {
    var o := seq(13, i requires 0 <= i < 13 => OrphanAt(i));
    var ts := ThirteenOrphans();
    forall i | 0 <= i < 13
      ensures multiset(o)[o[i]] == 1
    {
      Unique(o, i);
    }
    assert ts == o + [Tile(1, Man)];
    assert multiset(ts) == multiset(o) + multiset{Tile(1, Man)};
    assert o[0] == Tile(1, Man);
    forall i | 0 <= i < 14
      ensures !Simple(ts[i])
      ensures multiset(ts)[ts[i]] == if ts[i] == Tile(1, Man) then 2 else 1
    {
      if i < 13 {
        assert ts[i] == o[i];
      }
    }
    assert multiset(ts)[ts[0]] == 2;
  }

  /** The thirteen terminals and honors as a set. */
  function Orphans(): set<Tile>
  {
    {Tile(1, Man), Tile(9, Man), Tile(1, Pin), Tile(9, Pin), Tile(1, Sou), Tile(9, Sou),
     Tile(1, Honor), Tile(2, Honor), Tile(3, Honor), Tile(4, Honor), Tile(5, Honor), Tile(6, Honor), Tile(7, Honor)}
  }

  /** A honor value is one of the seven honors. */
  predicate HonorInRange(t: Tile)
  {
    IsHonor(t) ==> 1 <= t.value <= 7
  }

  /** There are thirteen orphans, and every tile that is not simple is one. */
  lemma OrphansMeaning(t: Tile)
    ensures |Orphans()| == 13
    ensures !Simple(t) && HonorInRange(t) ==> t in Orphans()
  {
  }

  /** A multiset of single copies drawn from `s` is no larger than `s`. */
  lemma {:induction false} SinglesBound(m: multiset<Tile>, s: set<Tile>)
    requires forall t | t in m :: t in s && m[t] == 1
    ensures |m| <= |s|
    decreases |s|
  {
    if m != multiset{} {
      var x :| x in m;
      var rest := m - multiset{x};
      assert m == rest + multiset{x};
      forall t | t in rest
        ensures t in s - {x} && rest[t] == 1
      {
      }
      SinglesBound(rest, s - {x});
    }
  }

  /** A multiset drawn from `s` with single copies except for two of `p`
      has at most one element more than `s`. */
  lemma OnePairBound(m: multiset<Tile>, s: set<Tile>, p: Tile)
    requires m[p] == 2
    requires forall t | t in m :: t in s && (t != p ==> m[t] == 1)
    ensures |m| <= |s| + 1
  {
    var rest := m - multiset{p, p};
    assert m == rest + multiset{p, p};
    forall t | t in rest
      ensures t in s - {p} && rest[t] == 1
    {
    }
    SinglesBound(rest, s - {p});
  }

  /** With one orphan missing, a Kokushi-shaped multiset has at most
      thirteen tiles. */
  lemma MissingOrphan(ts: seq<Tile>, o: Tile, p: Tile)
    requires o in Orphans() && o !in ts
    requires multiset(ts)[p] == 2
    requires forall t | t in multiset(ts) :: t in Orphans() && (t != p ==> multiset(ts)[t] == 1)
    ensures |ts| <= 13
  {
    OrphansMeaning(o);
    forall t | t in multiset(ts)
      ensures t in Orphans() - {o}
    {
    }
    OnePairBound(multiset(ts), Orphans() - {o}, p);
  }

  /** On fourteen tiles with honor values 1 to 7, the corrected Kokushi
      means what the yaku's description says: every one of the thirteen
      terminals and honors occurs. */
  lemma KokushiHasAllOrphans(ts: seq<Tile>)
    requires |ts| == 14 && forall i | 0 <= i < |ts| :: HonorInRange(ts[i])
    requires Kokushi(ts)
    ensures forall o | o in Orphans() :: o in ts
  {
    var j :| 0 <= j < |ts| && multiset(ts)[ts[j]] == 2;
    var p := ts[j];
    forall t | t in multiset(ts)
      ensures t in Orphans() && (t != p ==> multiset(ts)[t] == 1)
    {
      var k :| 0 <= k < |ts| && ts[k] == t;
      OrphansMeaning(t);
    }
    forall o | o in Orphans()
      ensures o in ts
    {
      if o !in ts {
        MissingOrphan(ts, o, p);
      }
    }
  }

  /** `WEIRD_YAKU` with the corrected Kokushi. */
  function Table(): seq<WeirdYaku>
  {
    [ WeirdYaku("Chiitoi", "Seven (7) pairs", 2, Illegal, Chiitoi),
      WeirdYaku("Kokushi musou", "13 terminals/honors + a copy of one", 99, Illegal, Kokushi)
    ]
  }

  /** Both weird entries: name, description, han and open scoring, and the
      predicate each applies to the tiles. */
  lemma TableMeaning(ts: seq<Tile>)
    ensures |Table()| == 2
    ensures (Table()[0].name, Table()[0].desc, Table()[0].han, Table()[0].openScore)
      == ("Chiitoi", "Seven (7) pairs", 2, Illegal)
    ensures Table()[0].f(ts) == Chiitoi(ts)
    ensures (Table()[1].name, Table()[1].desc, Table()[1].han, Table()[1].openScore)
      == ("Kokushi musou", "13 terminals/honors + a copy of one", 99, Illegal)
    ensures Table()[1].f(ts) == Kokushi(ts)
  {
  }
}
