/** The yaku record shared by the yaku tables (src/yaku/mod.rs,
    src/yaku/weird.rs) and the player data it is evaluated against
    (src/player_state.rs). */
module YakuTable {
  import opened Tiles
  import opened Mentsus

  /** How a yaku scores when the hand is open. */
  datatype OpenScore = Full | Reduced | Illegal

  datatype Wind = East | South | West | North

  datatype PlayerState = PlayerState(seatWind: Wind, roundWind: Wind, dealer: bool)

  /** A yaku over a grouped hand. The predicate may be partial: a predicate
      that panics on some hands only accepts the hands it is defined on. */
  datatype Yaku = Yaku(
    name: string,
    desc: string,
    han: nat,
    openScore: OpenScore,
    f: (seq<Mentsu>, PlayerState) --> bool)

  /** A yaku over the bare tiles of a hand. */
  datatype WeirdYaku = WeirdYaku(
    name: string,
    desc: string,
    han: nat,
    openScore: OpenScore,
    f: seq<Tile> -> bool)

  /** An entry's name, description, han and open scoring. */
  function Heading(y: Yaku): (string, string, nat, OpenScore)
  {
    (y.name, y.desc, y.han, y.openScore)
  }

  /** `valid_for`: the predicate, applied where it is defined. */
  predicate ValidFor(y: Yaku, h: seq<Mentsu>, s: PlayerState)
    requires y.f.requires(h, s)
  {
    y.f(h, s)
  }
}
