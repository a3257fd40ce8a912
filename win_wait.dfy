/** The wait pattern completed by the winning tile (src/win_wait.rs). */
module Waits {
  import opened Wrappers

  datatype WinWait = Ryanmen | Kanchan | Penchan | Tanki | Shanpon

  /** Declaration position, which the derived `Ord` compares. */
  function Rank(w: WinWait): nat
  {
    match w
    case Ryanmen => 0
    case Kanchan => 1
    case Penchan => 2
    case Tanki => 3
    case Shanpon => 4
  }

  predicate Less(a: WinWait, b: WinWait)
  {
    Rank(a) < Rank(b)
  }

  /** The derived order is Ryanmen < Kanchan < Penchan < Tanki < Shanpon,
      and it is a strict total order. */
  lemma LessIsDeclarationOrder(a: WinWait, b: WinWait)
    ensures Less(Ryanmen, Kanchan) && Less(Kanchan, Penchan) && Less(Penchan, Tanki) && Less(Tanki, Shanpon)
    ensures !Less(a, a) && (a != b ==> Less(a, b) || Less(b, a))
  {
  }

  /** `Option<WinWait>` under the derived order: `None` first. */
  predicate OptionLess(a: Option<WinWait>, b: Option<WinWait>)
  {
    match (a, b)
    case (None, Some(_)) => true
    case (Some(x), Some(y)) => Less(x, y)
    case _ => false
  }

  /** The `Display` code of a wait. */
  function Code(w: WinWait): string
  {
    match w
    case Ryanmen => "RYN"
    case Kanchan => "KAN"
    case Penchan => "PEN"
    case Tanki => "TAN"
    case Shanpon => "SHA"
  }

  /** Reads a code back; the partner of `Code`. */
  function FromCode(s: string): Option<WinWait>
  {
    if s == "RYN" then Some(Ryanmen)
    else if s == "KAN" then Some(Kanchan)
    else if s == "PEN" then Some(Penchan)
    else if s == "TAN" then Some(Tanki)
    else if s == "SHA" then Some(Shanpon)
    else None
  }

  /** Every wait is displayed as a three-letter code that reads back as that
      wait, so `Display` is injective over the five variants. */
  lemma CodeRoundTrip(w: WinWait, v: WinWait)
    ensures |Code(w)| == 3
    ensures FromCode(Code(w)) == Some(w)
    ensures Code(w) == Code(v) ==> w == v
  {
    assert FromCode(Code(v)) == Some(v);
  }
}
