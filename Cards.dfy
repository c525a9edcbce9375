/** The card model the core reads from the dealing library: ranks, a hand as
    four holdings in suit order (spades, hearts, diamonds, clubs) and a deal as
    four hands in seat order (North, East, South, West). */
module Cards {

  datatype Rank = Ace | King | Queen | Jack | Ten | Nine | Eight | Seven | Six | Five | Four | Three | Two

  /** The one-character name of a rank (`rank.name`); ten is 'T'. */
  function Name(r: Rank): char
  {
    match r
    case Ace => 'A'
    case King => 'K'
    case Queen => 'Q'
    case Jack => 'J'
    case Ten => 'T'
    case Nine => '9'
    case Eight => '8'
    case Seven => '7'
    case Six => '6'
    case Five => '5'
    case Four => '4'
    case Three => '3'
    case Two => '2'
  }

  /** A seat's cards, one holding per suit. The order of ranks inside a
      holding is whatever the library iterates; nothing here depends on it. */
  datatype Hand = Hand(spades: seq<Rank>, hearts: seq<Rank>, diamonds: seq<Rank>, clubs: seq<Rank>)
  {
    /** The holding at position `i` when the hand is enumerated. */
    function Holding(i: nat): seq<Rank>
      requires i < 4
    {
      if i == 0 then spades else if i == 1 then hearts else if i == 2 then diamonds else clubs
    }
  }

  /** The seat letters in deal order: `deal[p]` is the hand of `SEATS[p]`. */
  const SEATS: seq<char> := ['N', 'E', 'S', 'W']

  /** A deal, indexable as `deal[0]` .. `deal[3]`. */
  datatype Deal = Deal(north: Hand, east: Hand, south: Hand, west: Hand)
  {
    function At(i: nat): Hand
      requires i < 4
    {
      if i == 0 then north else if i == 1 then east else if i == 2 then south else west
    }
  }

  /** High-card points of one card: A=4, K=3, Q=2, J=1. */
  function RankPoints(r: Rank): nat
  {
    match r
    case Ace => 4
    case King => 3
    case Queen => 2
    case Jack => 1
    case _ => 0
  }

  function HoldingPoints(h: seq<Rank>): nat
  {
    if h == [] then 0 else RankPoints(h[0]) + HoldingPoints(h[1..])
  }

  /** `hand.hcp`. */
  function Hcp(hand: Hand): nat
  {
    HoldingPoints(hand.spades) + HoldingPoints(hand.hearts)
      + HoldingPoints(hand.diamonds) + HoldingPoints(hand.clubs)
  }
}
