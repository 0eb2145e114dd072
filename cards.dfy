/** Playing cards: the thirteen ranks, the four suits and the point value of a card
    (script.py, class Card). */
module Cards {

  datatype Rank = Two | Three | Four | Five | Six | Seven | Eight | Nine | Ten
                | Jack | Queen | King | Ace

  datatype Suit = Clubs | Diamonds | Hearts | Spades

  /** A card is an immutable rank/suit pair. */
  datatype Card = Card(rank: Rank, suit: Suit)

  /** The class-level rank list, in the order the deck is built. */
  const Ranks: seq<Rank> := [Two, Three, Four, Five, Six, Seven, Eight, Nine, Ten,
                             Jack, Queen, King, Ace]

  /** The class-level suit list. */
  const Suits: seq<Suit> := [Clubs, Diamonds, Hearts, Spades]

  /** The position of a rank in Ranks, as an independent ordinal. */
  function Ordinal(r: Rank): (n: nat)
    ensures n < 13
  {
    match r
    case Two => 0   case Three => 1  case Four => 2   case Five => 3
    case Six => 4   case Seven => 5  case Eight => 6  case Nine => 7
    case Ten => 8   case Jack => 9   case Queen => 10 case King => 11
    case Ace => 12
  }

  /** The position of a suit in Suits. */
  function SuitOrdinal(s: Suit): (n: nat)
    ensures n < 4
  {
    match s
    case Clubs => 0 case Diamonds => 1 case Hearts => 2 case Spades => 3
  }

  /** Ranks lists every rank exactly once, at its ordinal. */
  lemma RanksAtOrdinal()
    ensures |Ranks| == 13
    ensures forall i :: 0 <= i < |Ranks| ==> Ordinal(Ranks[i]) == i
    ensures forall r: Rank :: Ranks[Ordinal(r)] == r
  {
  }

  /** Suits lists every suit exactly once, at its ordinal. */
  lemma SuitsAtOrdinal()
    ensures |Suits| == 4
    ensures forall i :: 0 <= i < |Suits| ==> SuitOrdinal(Suits[i]) == i
    ensures forall s: Suit :: Suits[SuitOrdinal(s)] == s
  {
  }

  /** Python's list.index: the position of the first occurrence of x in s. */
  function IndexOf<T(==)>(s: seq<T>, x: T): (i: nat)
    requires x in s
    ensures i < |s| && s[i] == x
    ensures x !in s[..i]
  {
    if s[0] == x then 0
    else
      assert s == [s[0]] + s[1..];
      var j := IndexOf(s[1..], x);
      assert s[..j + 1] == [s[0]] + s[1..][..j];
      j + 1
  }

  /** In a list that holds every rank at its ordinal, list.index finds a rank at its
      ordinal. */
  lemma IndexOfOrdinal(rs: seq<Rank>, r: Rank)
    requires forall i :: 0 <= i < |rs| ==> Ordinal(rs[i]) == i
    requires Ordinal(r) < |rs| && rs[Ordinal(r)] == r
    ensures r in rs && IndexOf(rs, r) == Ordinal(r)
  {
    var k := IndexOf(rs, r);
    assert Ordinal(rs[k]) == k;
  }

  /** The rank list position found by list.index is the rank's ordinal. */
  lemma IndexOfRank(r: Rank)
    ensures r in Ranks && IndexOf(Ranks, r) == Ordinal(r)
  {
    RanksAtOrdinal();
    IndexOfOrdinal(Ranks, r);
  }

  /** Card.value: 10 for Jack, Queen and King, 1 for an Ace, and the position in the rank
      list plus 2 for every other rank. */
  function Points(c: Card): (v: nat)
    ensures 1 <= v <= 10
    ensures v == 1 <==> c.rank == Ace
    ensures v == 10 <==> c.rank == Ten || c.rank == Jack || c.rank == Queen || c.rank == King
  {
    if c.rank == Jack || c.rank == Queen || c.rank == King then 10
    else if c.rank == Ace then 1
    else IndexOfRank(c.rank); IndexOf(Ranks, c.rank) + 2
  }

  /** The printed face number of a pip rank, written out independently. */
  function FaceNumber(r: Rank): nat
    requires r !in {Jack, Queen, King, Ace}
  {
    match r
    case Two => 2   case Three => 3 case Four => 4 case Five => 5
    case Six => 6   case Seven => 7 case Eight => 8 case Nine => 9
    case Ten => 10
  }

  /** Two..Ten are worth their face number. */
  lemma PipPointsAreFaceNumbers(c: Card)
    requires c.rank !in {Jack, Queen, King, Ace}
    ensures Points(c) == FaceNumber(c.rank)
  {
    IndexOfRank(c.rank);
  }
}
