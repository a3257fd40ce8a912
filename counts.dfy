/** The tile counts `build` keeps in a `BTreeMap<Tile, u32>`: its entries in
    key order, so that `counts.iter().nth(i)` is `c[i]`. Keys are never
    removed; counts only go up while counting and down while decrementing. */
module Counts {
  import opened Wrappers
  import opened Tiles

  type Counts = seq<(Tile, nat)>

  /** Keys strictly increase in tile order, as a `BTreeMap` iterates them. */
  ghost predicate Ordered(c: Counts)
  {
    forall i, j | 0 <= i < j < |c| :: Tiles.Less(c[i].0, c[j].0)
  }

  /** Every key is above `t`. */
  ghost predicate Above(c: Counts, t: Tile)
  {
    forall k | 0 <= k < |c| :: Tiles.Less(t, c[k].0)
  }

  /** The tile multiset the counts stand for. */
  ghost function Contents(c: Counts): multiset<Tile>
  {
    if c == [] then multiset{} else multiset{}[c[0].0 := c[0].1] + Contents(c[1..])
  }

  /** The number of tiles counted. */
  function Total(c: Counts): nat
  {
    if c == [] then 0 else c[0].1 + Total(c[1..])
  }

  lemma {:induction false} TotalIsSize(c: Counts)
    ensures Total(c) == |Contents(c)|
  {
    if c != [] {
      TotalIsSize(c[1..]);
    }
  }

  /** `BTreeMap::get`. */
  function Get(c: Counts, t: Tile): (r: Option<nat>)
    ensures r.Some? ==> exists k | 0 <= k < |c| :: c[k] == (t, r.value)
    ensures r.None? ==> forall k | 0 <= k < |c| :: c[k].0 != t
  {
    if c == [] then None
    else if c[0].0 == t then Some(c[0].1)
    else
      var r := Get(c[1..], t);
      assert r.Some? ==> exists k | 0 <= k < |c[1..]| :: c[1..][k] == (t, r.value);
      assert r.Some? ==> exists k | 0 <= k < |c| :: c[k] == (t, r.value) by {
        if r.Some? {
          var k :| 0 <= k < |c[1..]| && c[1..][k] == (t, r.value);
          assert c[k + 1] == (t, r.value);
        }
      }
      r
  }

  /** In ordered counts, a key sits at exactly one position. */
  lemma KeyUnique(c: Counts, k: nat, m: nat)
    requires Ordered(c) && k < |c| && m < |c| && c[k].0 == c[m].0
    ensures k == m
  {
    Tiles.LessIsStrictTotalOrder(c[k].0, c[m].0, c[m].0);
  }

  /** `get` on ordered counts finds the entry at its one position. */
  lemma GetAt(c: Counts, k: nat)
    requires Ordered(c) && k < |c|
    ensures Get(c, c[k].0) == Some(c[k].1)
  {
    var r := Get(c, c[k].0);
    var m :| 0 <= m < |c| && c[m] == (c[k].0, r.value);
    KeyUnique(c, k, m);
  }

  /** The count a tile has in the multiset is what `get` returns, or 0. */
  lemma {:induction false} ContentsAt(c: Counts, t: Tile)
    requires Ordered(c)
    ensures Contents(c)[t] == match Get(c, t) case Some(n) => n case None => 0
  {
    if c != [] {
      assert Ordered(c[1..]);
      ContentsAt(c[1..], t);
      if c[0].0 == t {
        TailLacksHead(c);
        GetAbsent(c[1..], t);
      }
    }
  }

  /** In ordered counts the first key does not come again. */
  lemma TailLacksHead(c: Counts)
    requires Ordered(c) && c != []
    ensures forall k | 0 <= k < |c[1..]| :: c[1..][k].0 != c[0].0
  {
    forall k | 0 <= k < |c[1..]|
      ensures c[1..][k].0 != c[0].0
    {
      assert c[1..][k] == c[k + 1];
      Tiles.LessIsStrictTotalOrder(c[0].0, c[k + 1].0, c[k + 1].0);
    }
  }

  /** `get` of a tile that is no key finds nothing. */
  lemma {:induction false} GetAbsent(c: Counts, t: Tile)
    requires forall k | 0 <= k < |c| :: c[k].0 != t
    ensures Get(c, t) == None
  {
    if c != [] {
      assert c[0].0 != t;
      forall k | 0 <= k < |c[1..]|
        ensures c[1..][k].0 != t
      {
        assert c[1..][k] == c[k + 1];
      }
      GetAbsent(c[1..], t);
    }
  }

  /** A tile with a positive count is a key. */
  lemma PositiveIsKey(c: Counts, t: Tile)
    requires Ordered(c) && Contents(c)[t] > 0
    ensures Get(c, t).Some? && Get(c, t).value == Contents(c)[t]
  {
    ContentsAt(c, t);
  }

  /** `counts.entry(t).and_modify(|v| *v += 1).or_insert(1)`. */
  function Increment(c: Counts, t: Tile): (r: Counts)
    requires Ordered(c)
    ensures Ordered(r)
    ensures Contents(r) == Contents(c) + multiset{t}
    ensures forall b | Above(c, b) && Tiles.Less(b, t) :: Above(r, b)
  {
    if c == [] then [(t, 1)]
    else if c[0].0 == t then
      BumpHead(c, t);
      [(t, c[0].1 + 1)] + c[1..]
    else if Tiles.Less(t, c[0].0) then
      InsertFront(c, t);
      [(t, 1)] + c
    else
      var rest := Increment(c[1..], t);
      InsertLater(c, t, rest);
      [c[0]] + rest
  }

  lemma ConsContents(c: Counts)
    requires c != []
    ensures Contents(c) == multiset{}[c[0].0 := c[0].1] + Contents(c[1..])
  {
  }

  /** Incrementing the first key. */
  lemma BumpHead(c: Counts, t: Tile)
    requires Ordered(c) && c != [] && c[0].0 == t
    ensures var r := [(t, c[0].1 + 1)] + c[1..];
            Ordered(r) && Contents(r) == Contents(c) + multiset{t}
            && forall b | Above(c, b) && Tiles.Less(b, t) :: Above(r, b)
  {
    var r := [(t, c[0].1 + 1)] + c[1..];
    assert r[1..] == c[1..];
    ConsContents(c);
    ConsContents(r);
  }

  /** Inserting a new key before the first one. */
  lemma InsertFront(c: Counts, t: Tile)
    requires Ordered(c) && c != [] && Tiles.Less(t, c[0].0)
    ensures Ordered([(t, 1)] + c)
    ensures Contents([(t, 1)] + c) == Contents(c) + multiset{t}
    ensures forall b | Above(c, b) && Tiles.Less(b, t) :: Above([(t, 1)] + c, b)
  {
    var r := [(t, 1)] + c;
    forall k | 0 < k < |r| ensures Tiles.Less(t, r[k].0) {
      if k > 1 {
        Tiles.LessIsStrictTotalOrder(t, c[0].0, c[k - 1].0);
      }
    }
    assert r[1..] == c;
    ConsContents(r);
  }

  /** Keeping the first key and incrementing in the rest. */
  lemma InsertLater(c: Counts, t: Tile, rest: Counts)
    requires Ordered(c) && c != [] && Tiles.Less(c[0].0, t)
    requires Ordered(rest) && Contents(rest) == Contents(c[1..]) + multiset{t}
    requires forall b | Above(c[1..], b) && Tiles.Less(b, t) :: Above(rest, b)
    ensures Ordered([c[0]] + rest)
    ensures Contents([c[0]] + rest) == Contents(c) + multiset{t}
    ensures forall b | Above(c, b) && Tiles.Less(b, t) :: Above([c[0]] + rest, b)
  {
    assert Above(c[1..], c[0].0);
    assert Above(rest, c[0].0);
    var r := [c[0]] + rest;
    forall b | Above(c, b) && Tiles.Less(b, t) ensures Above(r, b) {
      assert Above(c[1..], b);
      assert Above(rest, b);
    }
    assert r[1..] == rest;
    ConsContents(c);
    ConsContents(r);
  }

  /** No key is decremented below zero. */
  predicate Enough(c: Counts, ts: seq<Tile>)
  {
    forall k | 0 <= k < |c| :: multiset(ts)[c[k].0] <= c[k].1
  }

  /** Counts after decrementing once per occurrence in `ts`; tiles that are
      not keys are ignored, as `entry(t).and_modify` ignores them. */
  function Decremented(c: Counts, ts: seq<Tile>): (r: Counts)
    requires Enough(c, ts)
    ensures |r| == |c|
    ensures forall k | 0 <= k < |c| :: r[k].0 == c[k].0 && r[k].1 == c[k].1 - multiset(ts)[c[k].0]
  {
    seq(|c|, k requires 0 <= k < |c| => (c[k].0, c[k].1 - multiset(ts)[c[k].0]))
  }

  /** `decrement`: a clone of the counts, decremented tile by tile. */
  method Decrement(c: Counts, ts: seq<Tile>) returns (r: Counts)
    requires Enough(c, ts)
    ensures r == Decremented(c, ts)
  {
    r := c;
    for j := 0 to |ts|
      invariant Enough(c, ts[..j])
      invariant r == Decremented(c, ts[..j])
    {
      assert ts[..j + 1] == ts[..j] + [ts[j]];
      assert ts == ts[..j + 1] + ts[j + 1..];
      r := seq(|r|, k requires 0 <= k < |r| => if r[k].0 == ts[j] then (r[k].0, r[k].1 - 1) else r[k]);
    }
    assert ts[..|ts|] == ts;
  }

  /** Decrementing ordered counts keeps their keys and order, takes the
      tiles out of the multiset, and lowers the total by one per tile when
      every tile is a key. */
  lemma DecrementedContents(c: Counts, ts: seq<Tile>)
    requires Ordered(c) && Enough(c, ts)
    ensures Ordered(Decremented(c, ts))
    ensures Contents(Decremented(c, ts)) == Contents(c) - multiset(ts)
    ensures (forall t | t in ts :: Get(c, t).Some?) ==>
      Contents(Decremented(c, ts)) + multiset(ts) == Contents(c) && Total(Decremented(c, ts)) == Total(c) - |ts|
  {
    var d := Decremented(c, ts);
    assert Ordered(d);
    forall t
      ensures Contents(d)[t] == (Contents(c) - multiset(ts))[t]
    {
      DecrementedAt(c, ts, t);
    }
    if forall t | t in ts :: Get(c, t).Some? {
      forall t
        ensures multiset(ts)[t] <= Contents(c)[t]
      {
        EnoughAt(c, ts, t);
      }
      assert multiset(ts) <= Contents(c);
      assert Contents(d) + multiset(ts) == Contents(c);
      TotalIsSize(c);
      TotalIsSize(d);
    }
  }

  /** One tile's count after decrementing. */
  lemma DecrementedAt(c: Counts, ts: seq<Tile>, t: Tile)
    requires Ordered(c) && Enough(c, ts) && Ordered(Decremented(c, ts))
    ensures Contents(Decremented(c, ts))[t] == (Contents(c) - multiset(ts))[t]
  {
    var d := Decremented(c, ts);
    ContentsAt(c, t);
    ContentsAt(d, t);
    match Get(c, t)
    case Some(n) =>
      var k :| 0 <= k < |c| && c[k] == (t, n);
      GetAt(d, k);
    case None =>
      GetAbsent(d, t);
  }

  /** A key counts at least as many copies as enough counts demand. */
  lemma EnoughAt(c: Counts, ts: seq<Tile>, t: Tile)
    requires Ordered(c) && Enough(c, ts) && (t in ts ==> Get(c, t).Some?)
    ensures multiset(ts)[t] <= Contents(c)[t]
  {
    if t in ts {
      ContentsAt(c, t);
      var k :| 0 <= k < |c| && c[k] == (t, Get(c, t).value);
    }
  }
}
