/** The suit of a tile and its one-letter notation (src/suit.rs). */
module Suits {
  import opened Wrappers

  /** The four suits, in declaration order. */
  datatype Suit = Man | Pin | Sou | Honor

  /** Position in declaration order: the order a derived `Ord` compares. */
  function Rank(s: Suit): nat
  {
    match s
    case Man => 0
    case Pin => 1
    case Sou => 2
    case Honor => 3
  }

  lemma RankInjective(a: Suit, b: Suit)
    ensures Rank(a) == Rank(b) ==> a == b
    ensures Rank(a) < 4
  {
  }

  /** `Suit::from(char)`; `None` is the `unreachable!()` panic on any other char. */
  function FromChar(c: char): (r: Option<Suit>)
    ensures r.Some? <==> c == 'm' || c == 'p' || c == 's' || c == 'z'
    ensures r == Some(Honor) <==> c == 'z'
  {
    match c
    case 'm' => Some(Man)
    case 's' => Some(Sou)
    case 'p' => Some(Pin)
    case 'z' => Some(Honor)
    case _ => None
  }

  /** The letter a suit is written with in hand notation. */
  function Letter(s: Suit): char
  {
    match s
    case Man => 'm'
    case Pin => 'p'
    case Sou => 's'
    case Honor => 'z'
  }

  /** Decoding is the inverse of writing the letter, in both directions. */
  lemma FromCharRoundTrip(s: Suit, c: char)
    ensures FromChar(Letter(s)) == Some(s)
    ensures FromChar(c).Some? ==> Letter(FromChar(c).value) == c
  {
  }

  /** The decoder is injective on the chars it accepts. */
  lemma FromCharInjective(a: char, b: char)
    requires FromChar(a).Some? && FromChar(a) == FromChar(b)
    ensures a == b
  {
    FromCharRoundTrip(Man, a);
    FromCharRoundTrip(Man, b);
  }
}
