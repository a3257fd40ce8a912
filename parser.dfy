/** `parse` and `interpret` (src/parser/mod.rs): read a hand written as runs
    of digits each closed by a suit letter, the winning tile being the last
    two characters and a blank before them meaning a win by Ron. */
module Parser {
  import opened Wrappers
  import opened Suits
  import opened Tiles
  import opened Mentsus
  import Sorting
  import Engine

  /** Where `parse` panics: the character before the last is not a digit
      (`to_digit(10).unwrap()`), or a letter closing a run of digits is no
      suit letter (`Suit::from`). */
  datatype ParseError = NoWinValue | UnknownSuit(c: char)

  /** The hand, the winning tile and how it was won. */
  datatype Parsed = Parsed(hand: seq<Tile>, win: Tile, how: WinMethod)

  predicate IsDigit(c: char)
  {
    '0' <= c <= '9'
  }

  function DigitValue(c: char): (v: nat)
    requires IsDigit(c)
    ensures v <= 9
  {
    (c as int) - ('0' as int)
  }

  /** `char::is_whitespace` on ASCII: tab, line feed, vertical tab, form
      feed, carriage return and space. */
  predicate IsWhitespace(c: char)
  {
    c == ' ' || '\t' <= c <= '\r'
  }

  predicate IsAscii(s: string)
  {
    forall i | 0 <= i < |s| :: (s[i] as int) < 128
  }

  /** The tiles of the digits `vals` closed by the letter of `suit`. */
  function Spread(vals: seq<nat>, suit: Suit): (ts: seq<Tile>)
    ensures |ts| == |vals|
    ensures forall i | 0 <= i < |vals| :: ts[i] == Tile(vals[i], suit)
  {
    if vals == [] then [] else [Tile(vals[0], suit)] + Spread(vals[1..], suit)
  }

  /** `p` put in front of the tiles of a successful read. */
  function Prepend(p: seq<Tile>, r: Result<seq<Tile>, ParseError>): Result<seq<Tile>, ParseError>
  {
    if r.Success? then Success(p + r.value) else r
  }

  /** The tiles the loop of `parse` pushes while reading `s` with the digits
      `buf` still waiting for their suit letter: a digit waits, any other
      character closes the waiting digits (and with none waiting, is
      skipped), and digits still waiting at the end are dropped. */
  function ReadFrom(s: string, buf: seq<nat>): Result<seq<Tile>, ParseError>
  {
    if s == [] then Success([])
    else if IsDigit(s[0]) then ReadFrom(s[1..], buf + [DigitValue(s[0])])
    else if buf == [] then ReadFrom(s[1..], [])
    else match FromChar(s[0])
      case None => Failure(UnknownSuit(s[0]))
      case Some(suit) => Prepend(Spread(buf, suit), ReadFrom(s[1..], []))
  }

  /** The digits waiting after reading `s` from `buf`. */
  function Pending(s: string, buf: seq<nat>): seq<nat>
  {
    if s == [] then buf
    else if IsDigit(s[0]) then Pending(s[1..], buf + [DigitValue(s[0])])
    else Pending(s[1..], [])
  }

  /** The read of `s` followed by the read of what comes after it. */
  function Join(a: Result<seq<Tile>, ParseError>, b: Result<seq<Tile>, ParseError>): Result<seq<Tile>, ParseError>
  {
    if a.Success? then Prepend(a.value, b) else a
  }

  /** What `parse` returns, or where it panics. The winning tile is read
      first; then the whole string, its last two characters included, is
      read as the hand, which is sorted by the tile order. */
  function ParseSpec(s: string): Result<Parsed, ParseError>
    requires |s| >= 2
  {
    var c := s[|s| - 2];
    if !IsDigit(c) then Failure(NoWinValue)
    else match FromChar(s[|s| - 1])
      case None => Failure(UnknownSuit(s[|s| - 1]))
      case Some(suit) =>
        var how := if |s| >= 3 && IsWhitespace(s[|s| - 3]) then Ron else Tsumo;
        match ReadFrom(s, [])
        case Failure(e) => Failure(e)
        case Success(ts) => Success(Parsed(Sorting.Sort(ts, Tiles.Less), Tile(DigitValue(c), suit), how))
  }

  lemma PrependEmpty(r: Result<seq<Tile>, ParseError>)
    ensures Prepend([], r) == r
  {
    if r.Success? {
      assert [] + r.value == r.value;
    }
  }

  lemma PrependAssoc(p: seq<Tile>, q: seq<Tile>, r: Result<seq<Tile>, ParseError>)
    ensures Prepend(p, Prepend(q, r)) == Prepend(p + q, r)
  {
    if r.Success? {
      assert p + (q + r.value) == (p + q) + r.value;
    }
  }

  /** `parse`: the loop over the characters with its buffer of waiting
      digits, then the sort. */
  method Parse(s: string) returns (r: Result<Parsed, ParseError>)
    requires |s| >= 2 && IsAscii(s)
    ensures r == ParseSpec(s)
  {
    var n := |s|;
    if !IsDigit(s[n - 2]) {
      return Failure(NoWinValue);
    }
    var winSuit := FromChar(s[n - 1]);
    if winSuit.None? {
      return Failure(UnknownSuit(s[n - 1]));
    }
    var winTile := Tile(DigitValue(s[n - 2]), winSuit.value);
    var how := if n >= 3 && IsWhitespace(s[n - 3]) then Ron else Tsumo;

    var suitVals: seq<nat> := [];
    var handTiles: seq<Tile> := [];
    assert s[0..] == s;
    PrependEmpty(ReadFrom(s, []));
    for k := 0 to n
      invariant ReadFrom(s, []) == Prepend(handTiles, ReadFrom(s[k..], suitVals))
    {
      assert s[k..][1..] == s[k + 1..];
      var c := s[k];
      if IsDigit(c) {
        suitVals := suitVals + [DigitValue(c)];
        continue;
      }
      if suitVals != [] {
        var suit := FromChar(c);
        if suit.None? {
          return Failure(UnknownSuit(c));
        }
        PrependAssoc(handTiles, Spread(suitVals, suit.value), ReadFrom(s[k + 1..], []));
        handTiles := PushSpread(handTiles, suitVals, suit.value);
      }
      suitVals := [];
    }
    assert handTiles + [] == handTiles;
    r := Success(Parsed(Sorting.Sort(handTiles, Tiles.Less), winTile, how));
  }

  /** The inner loop of `parse`: one tile of `suit` per buffered value. */
  method PushSpread(acc: seq<Tile>, vals: seq<nat>, suit: Suit) returns (out: seq<Tile>)
    ensures out == acc + Spread(vals, suit)
  {
    out := acc;
    for j := 0 to |vals|
      invariant out == acc + Spread(vals[..j], suit)
    {
      SpreadPrefix(vals, j, suit);
      out := out + [Tile(vals[j], suit)];
    }
    assert vals[..|vals|] == vals;
  }

  lemma SpreadPrefix(vals: seq<nat>, j: nat, suit: Suit)
    requires j < |vals|
    ensures Spread(vals[..j + 1], suit) == Spread(vals[..j], suit) + [Tile(vals[j], suit)]
  {
    var a, b := Spread(vals[..j + 1], suit), Spread(vals[..j], suit) + [Tile(vals[j], suit)];
    assert |a| == |b|;
    forall i | 0 <= i < |a| ensures a[i] == b[i] {
    }
  }

  /** `interpret`: every grouping of the hand `build` finds. */
  method Interpret(hand: seq<Tile>, w: Tile, how: WinMethod) returns (r: Result<set<seq<Mentsu>>, Engine.BuildError>)
    ensures r == Engine.BuildSpec(hand, w, how)
  {
    r := Engine.Build(hand, w, how);
  }

  // ---------------------------------------------------------------------
  // Properties of reading
  // ---------------------------------------------------------------------

  /** Reading `s + t` reads `s`, then reads `t` with the digits `s` left
      waiting. */
  lemma {:induction false} ReadAppend(s: string, t: string, buf: seq<nat>)
    ensures ReadFrom(s + t, buf) == Join(ReadFrom(s, buf), ReadFrom(t, Pending(s, buf)))
    ensures Pending(s + t, buf) == Pending(t, Pending(s, buf))
    decreases |s|
  {
    if s == [] {
      assert s + t == t;
      PrependEmpty(ReadFrom(t, buf));
    } else {
      assert (s + t)[0] == s[0] && (s + t)[1..] == s[1..] + t;
      if IsDigit(s[0]) {
        ReadAppend(s[1..], t, buf + [DigitValue(s[0])]);
      } else {
        ReadAppend(s[1..], t, []);
        if buf != [] && FromChar(s[0]).Some? {
          var suit := FromChar(s[0]).value;
          var rest := ReadFrom(s[1..], []);
          if rest.Success? {
            PrependAssoc(Spread(buf, suit), rest.value, ReadFrom(t, Pending(s[1..], [])));
          }
        }
      }
    }
  }

  /** Digits alone push nothing: they only wait. */
  lemma {:induction false} DigitsOnly(ds: string, buf: seq<nat>)
    requires forall i | 0 <= i < |ds| :: IsDigit(ds[i])
    ensures ReadFrom(ds, buf) == Success([])
    ensures |Pending(ds, buf)| == |buf| + |ds|
    decreases |ds|
  {
    if ds != [] {
      DigitsOnly(ds[1..], buf + [DigitValue(ds[0])]);
    }
  }

  /** Digits at the end of the string, with no suit letter after them, are
      dropped; a character other than a digit with no digits waiting is
      skipped. */
  lemma ReadIgnores(s: string, ds: string, c: char)
    requires forall i | 0 <= i < |ds| :: IsDigit(ds[i])
    requires !IsDigit(c)
    ensures ReadFrom(s + ds, []) == ReadFrom(s, [])
    ensures ReadFrom([c] + s, []) == ReadFrom(s, [])
  {
    ReadAppend(s, ds, []);
    DigitsOnly(ds, Pending(s, []));
    var r := ReadFrom(s, []);
    if r.Success? {
      assert r.value + [] == r.value;
    }
    assert ([c] + s)[1..] == s;
  }

  /** A run of digits closed by a suit letter, as the notation writes it. */
  datatype Run = Run(values: seq<nat>, suit: Suit)

  predicate Digits(vals: seq<nat>)
  {
    forall i | 0 <= i < |vals| :: vals[i] <= 9
  }

  function DigitChar(v: nat): char
    requires v <= 9
  {
    ('0' as int + v) as char
  }

  /** The characters of the digits `vals`. */
  function DigitString(vals: seq<nat>): (s: string)
    requires Digits(vals)
    ensures |s| == |vals|
    ensures forall i | 0 <= i < |s| :: IsDigit(s[i]) && DigitValue(s[i]) == vals[i]
  {
    if vals == [] then [] else [DigitChar(vals[0])] + DigitString(vals[1..])
  }

  predicate WellWritten(rs: seq<Run>)
  {
    forall i | 0 <= i < |rs| :: Digits(rs[i].values)
  }

  /** The hand in the notation `parse` reads, one run after another. */
  function Render(rs: seq<Run>): string
    requires WellWritten(rs)
  {
    if rs == [] then [] else DigitString(rs[0].values) + [Letter(rs[0].suit)] + Render(rs[1..])
  }

  /** The tiles the runs stand for, in the order written. */
  function Expand(rs: seq<Run>): seq<Tile>
  {
    if rs == [] then [] else Spread(rs[0].values, rs[0].suit) + Expand(rs[1..])
  }

  /** The digits of a run wait, in order, behind those already waiting. */
  lemma {:induction false} PendingDigits(vals: seq<nat>, buf: seq<nat>)
    requires Digits(vals)
    ensures Pending(DigitString(vals), buf) == buf + vals
    decreases |vals|
  {
    if vals != [] {
      var ds := DigitString(vals);
      assert ds[1..] == DigitString(vals[1..]);
      PendingDigits(vals[1..], buf + [vals[0]]);
      assert buf + [vals[0]] + vals[1..] == buf + vals;
    }
  }

  /** Reading one run closes its digits with its suit letter, leaving no
      digits waiting for the rest. */
  lemma ReadRun(vals: seq<nat>, suit: Suit, rest: string)
    requires Digits(vals)
    ensures ReadFrom(DigitString(vals) + [Letter(suit)] + rest, []) == Prepend(Spread(vals, suit), ReadFrom(rest, []))
    ensures Pending(DigitString(vals) + [Letter(suit)] + rest, []) == Pending(rest, [])
  {
    var ds := DigitString(vals);
    var letter := [Letter(suit)] + rest;
    assert ds + [Letter(suit)] + rest == ds + letter;
    ReadAppend(ds, letter, []);
    DigitsOnly(ds, []);
    PendingDigits(vals, []);
    assert [] + vals == vals;
    FromCharRoundTrip(suit, Letter(suit));
    assert letter[0] == Letter(suit) && letter[1..] == rest;
    PrependEmpty(ReadFrom(letter, vals));
    if vals == [] {
      PrependEmpty(ReadFrom(rest, []));
    }
  }

  /** Reading a rendered hand gives back its tiles in the order written. */
  lemma {:induction false} ReadRender(rs: seq<Run>)
    requires WellWritten(rs)
    ensures ReadFrom(Render(rs), []) == Success(Expand(rs))
    ensures Pending(Render(rs), []) == []
    decreases |rs|
  {
    if rs != [] {
      ReadRun(rs[0].values, rs[0].suit, Render(rs[1..]));
      ReadRender(rs[1..]);
    }
  }

  // ---------------------------------------------------------------------
  // Properties of parse
  // ---------------------------------------------------------------------

  lemma TileOrder()
    ensures Sorting.StrictTotalOrder(Tiles.Less)
  {
    forall a: Tile, b: Tile, c: Tile {
      Tiles.LessIsStrictTotalOrder(a, b, c);
    }
  }

  /** A string ending in a digit and a suit letter reads the winning tile
      as its last tile. */
  lemma ReadEndsWithWin(s: string, suit: Suit)
    requires |s| >= 2 && IsDigit(s[|s| - 2]) && FromChar(s[|s| - 1]) == Some(suit)
    requires ReadFrom(s, []).Success?
    ensures |ReadFrom(s, []).value| > 0
    ensures ReadFrom(s, []).value[|ReadFrom(s, []).value| - 1] == Tile(DigitValue(s[|s| - 2]), suit)
  {
    var n := |s|;
    var head, tail := s[..n - 2], s[n - 2..];
    assert s == head + tail;
    ReadAppend(head, tail, []);
    var buf := Pending(head, []) + [DigitValue(s[n - 2])];
    assert tail[0] == s[n - 2] && tail[1..] == [s[n - 1]];
    assert [s[n - 1]][1..] == [];
    assert ReadFrom(tail, Pending(head, [])) == ReadFrom([s[n - 1]], buf);
    assert ReadFrom([s[n - 1]], buf) == Success(Spread(buf, suit) + []);
  }

  /** What a successful parse returns: the hand is the tiles read, sorted,
      and holds the winning tile, which is the digit and suit letter at the
      end; the win is by Ron exactly when a blank comes before them. */
  lemma ParseCorrect(s: string)
    requires |s| >= 2 && ParseSpec(s).Success?
    ensures var p := ParseSpec(s).value;
      && ReadFrom(s, []).Success?
      && Sorting.Sorted(p.hand, Tiles.Less)
      && multiset(p.hand) == multiset(ReadFrom(s, []).value)
      && IsDigit(s[|s| - 2]) && FromChar(s[|s| - 1]).Some?
      && p.win == Tile(DigitValue(s[|s| - 2]), FromChar(s[|s| - 1]).value)
      && p.win in p.hand
      && (p.how == Ron <==> |s| >= 3 && IsWhitespace(s[|s| - 3]))
  {
    var ts := ReadFrom(s, []).value;
    TileOrder();
    Sorting.SortCorrect(ts, Tiles.Less);
    ReadEndsWithWin(s, FromChar(s[|s| - 1]).value);
    assert ts[|ts| - 1] in multiset(ts);
  }

  /** Where `parse` panics: exactly when the winning tile cannot be read or
      the hand holds a run of digits closed by a character that is no suit
      letter. */
  lemma ParseFails(s: string)
    requires |s| >= 2
    ensures ParseSpec(s).Failure? <==>
      !IsDigit(s[|s| - 2]) || FromChar(s[|s| - 1]).None? || ReadFrom(s, []).Failure?
    ensures ReadFrom(s, []).Failure? ==> exists i | 0 <= i < |s| :: !IsDigit(s[i]) && FromChar(s[i]).None?
  {
    ReadFailsAt(s, []);
  }

  /** A read fails only at a character that is neither digit nor suit
      letter. */
  lemma {:induction false} ReadFailsAt(s: string, buf: seq<nat>)
    ensures ReadFrom(s, buf).Failure? ==> exists i | 0 <= i < |s| :: !IsDigit(s[i]) && FromChar(s[i]).None?
    decreases |s|
  {
    if s != [] && ReadFrom(s, buf).Failure? {
      var buf' := if IsDigit(s[0]) then buf + [DigitValue(s[0])] else [];
      if IsDigit(s[0]) || buf == [] || FromChar(s[0]).Some? {
        ReadFailsAt(s[1..], buf');
        var i :| 0 <= i < |s[1..]| && !IsDigit(s[1..][i]) && FromChar(s[1..][i]).None?;
        assert s[i + 1] == s[1..][i];
      } else {
        assert !IsDigit(s[0]) && FromChar(s[0]).None?;
      }
    }
  }

  /** The hand "123m456p789s11z 5z"-style notation: a rendered hand followed
      by a blank and the winning tile parses to the tiles written, sorted,
      the winning tile among them, won by Ron. */
  lemma ParseRendered(rs: seq<Run>, v: nat, suit: Suit)
    requires WellWritten(rs) && v <= 9
    ensures var s := Render(rs) + [' '] + Render([Run([v], suit)]);
      && ParseSpec(s).Success?
      && ParseSpec(s).value.win == Tile(v, suit)
      && ParseSpec(s).value.how == Ron
      && multiset(ParseSpec(s).value.hand) == multiset(Expand(rs)) + multiset{Tile(v, suit)}
  {
    var s := Render(rs) + [' '] + Render([Run([v], suit)]);
    var ts := Expand(rs) + [Tile(v, suit)];
    ReadRenderedWin(rs, v, suit);
    FromCharRoundTrip(suit, Letter(suit));
    assert DigitValue(DigitChar(v)) == v;
    TileOrder();
    Sorting.SortCorrect(ts, Tiles.Less);
    assert ParseSpec(s) == Success(Parsed(Sorting.Sort(ts, Tiles.Less), Tile(v, suit), Ron));
  }

  /** The characters of a rendered hand with a blank and a winning tile,
      and what reading all of them gives. */
  lemma ReadRenderedWin(rs: seq<Run>, v: nat, suit: Suit)
    requires WellWritten(rs) && v <= 9
    ensures var s := Render(rs) + [' '] + Render([Run([v], suit)]);
      && |s| >= 3 && s[|s| - 3] == ' ' && s[|s| - 2] == DigitChar(v) && s[|s| - 1] == Letter(suit)
      && ReadFrom(s, []) == Success(Expand(rs) + [Tile(v, suit)])
  {
    var w := [Run([v], suit)];
    var s := Render(rs) + [' '] + Render(w);
    var blank := [' '] + Render(w);
    assert s == Render(rs) + blank;
    ReadAppend(Render(rs), blank, []);
    ReadRender(rs);
    ReadRender(w);
    assert blank[1..] == Render(w);
    assert Render(w) == [DigitChar(v), Letter(suit)];
    assert Expand(w) == [Tile(v, suit)];
  }
}
