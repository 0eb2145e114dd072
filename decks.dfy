/** The 52-card deck: built rank by rank, shuffled, dealt from the end
    (script.py, class Deck). */
module Decks {
  import opened Cards

  ghost predicate Distinct<T>(s: seq<T>)
  {
    forall i, j :: 0 <= i < j < |s| ==> s[i] != s[j]
  }

  /** The deck as built, before shuffling: the list comprehension over RANKS and then
      SUITS is rank-major, so position k holds rank k / 4 and suit k % 4. */
  function FullDeck(): (deck: seq<Card>)
    ensures |deck| == 52
  {
    seq(52, k requires 0 <= k < 52 => Card(Ranks[k / 4], Suits[k % 4]))
  }

  /** Every card occurs once and only once. */
  ghost predicate IsStandard(m: multiset<Card>)
  {
    forall c: Card :: m[c] == 1
  }

  /** The cards lie in the order of the comprehension: card (r, s) is at position
      4 * Ordinal(r) + SuitOrdinal(s). */
  lemma FullDeckLayout()
    ensures forall r: Rank, s: Suit ::
              FullDeck()[4 * Ordinal(r) + SuitOrdinal(s)] == Card(r, s)
  {
    forall r: Rank, s: Suit
      ensures FullDeck()[4 * Ordinal(r) + SuitOrdinal(s)] == Card(r, s)
    {
      FullDeckAt(Ordinal(r), SuitOrdinal(s));
      assert Ranks[Ordinal(r)] == r && Suits[SuitOrdinal(s)] == s;
    }
  }

  /** Position 4 * i + j holds the i-th rank in the j-th suit. */
  lemma FullDeckAt(i: nat, j: nat)
    requires i < 13 && j < 4
    ensures FullDeck()[4 * i + j] == Card(Ranks[i], Suits[j])
  {
    RowAndColumn(i, j);
  }

  /** Position 4 * i + j of a rank-major layout lies in row i and column j. */
  lemma RowAndColumn(i: nat, j: nat)
    requires j < 4
    ensures (4 * i + j) / 4 == i && (4 * i + j) % 4 == j
  {
  }

  /** No card is built twice. */
  lemma FullDeckDistinct()
    ensures Distinct(FullDeck())
  {
    RanksAtOrdinal();
    SuitsAtOrdinal();
  }

  /** In a list without repeats, every element occurs exactly once. */
  lemma {:induction false} DistinctOnce<T>(s: seq<T>, i: nat)
    requires Distinct(s) && i < |s|
    ensures multiset(s)[s[i]] == 1
    decreases |s|
  {
    var last := |s| - 1;
    assert s == s[..last] + [s[last]];
    if i == last {
      assert s[i] !in s[..last];
    } else {
      DistinctOnce(s[..last], i);
      assert s[last] != s[i];
    }
  }

  /** A freshly built deck holds one card for each (rank, suit) pair and no duplicates. */
  lemma FullDeckIsStandard()
    ensures IsStandard(multiset(FullDeck()))
  {
    FullDeckLayout();
    FullDeckDistinct();
    forall c: Card ensures multiset(FullDeck())[c] == 1 {
      DistinctOnce(FullDeck(), 4 * Ordinal(c.rank) + SuitOrdinal(c.suit));
    }
  }

  /** The number of copies of card c in the list s, counted from the front. This is the
      multiplicity multiset(s)[c] once more (CountIsMultiplicity); Game.Valid states
      conservation with it because the solver handles it far more cheaply there than
      sums of multisets. */
  function Count(s: seq<Card>, c: Card): nat
  {
    if s == [] then 0 else Count(s[..|s| - 1], c) + if s[|s| - 1] == c then 1 else 0
  }

  /** Count is the multiplicity of c in the multiset of s. */
  lemma {:induction false} CountIsMultiplicity(s: seq<Card>, c: Card)
    ensures Count(s, c) == multiset(s)[c]
    decreases |s|
  {
    if s != [] {
      CountIsMultiplicity(s[..|s| - 1], c);
      assert s == s[..|s| - 1] + [s[|s| - 1]];
    }
  }

  /** The first k cards dealt from `deck`, in the order they come off its end. */
  function Top(deck: seq<Card>, k: nat): seq<Card>
    requires k <= |deck|
  {
    seq(k, j requires 0 <= j < k => deck[|deck| - 1 - j])
  }

  /** One more deal extends the dealt cards by the next card from the end. */
  lemma TopStep(deck: seq<Card>, k: nat)
    requires k < |deck|
    ensures Top(deck, k + 1) == Top(deck, k) + [deck[|deck| - 1 - k]]
  {
  }

  /** Conservation: the cards dealt so far and the cards remaining are together exactly
      the original deck, so dealt + remaining = |deck| and nothing is dealt twice. */
  lemma {:induction false} TopConserves(deck: seq<Card>, k: nat)
    requires k <= |deck|
    ensures multiset(Top(deck, k)) + multiset(deck[..|deck| - k]) == multiset(deck)
  {
    if k > 0 {
      var n := |deck|;
      TopConserves(deck, k - 1);
      TopStep(deck, k - 1);
      assert deck[..n - (k - 1)] == deck[..n - k] + [deck[n - k]];
    } else {
      assert deck[..|deck|] == deck;
    }
  }

  /** random.shuffle as CPython performs it, restricted to the first i positions: for i - 1
      down to 1, position i - 1 is swapped with position pick(i - 1) % i, the stand-in for
      the generator's uniform choice below i. */
  function ShuffleUpTo(s: seq<Card>, i: nat, pick: nat -> nat): seq<Card>
    requires i <= |s|
    decreases i
  {
    if i <= 1 then s
    else
      var j := pick(i - 1) % i;
      ShuffleUpTo(s[i - 1 := s[j]][j := s[i - 1]], i - 1, pick)
  }

  /** The whole list shuffled. */
  function Shuffled(s: seq<Card>, pick: nat -> nat): seq<Card>
  {
    ShuffleUpTo(s, |s|, pick)
  }

  /** Whatever the generator returns, shuffling only permutes: the same cards, each as
      often as before, and so the same length. */
  lemma {:induction false} ShufflePermutes(s: seq<Card>, i: nat, pick: nat -> nat)
    requires i <= |s|
    ensures |ShuffleUpTo(s, i, pick)| == |s|
    ensures multiset(ShuffleUpTo(s, i, pick)) == multiset(s)
    decreases i
  {
    if i > 1 {
      var j := pick(i - 1) % i;
      var t := s[i - 1 := s[j]][j := s[i - 1]];
      ShufflePermutes(t, i - 1, pick);
      assert multiset(t) == multiset(s);
    }
  }

  /** The deck: a list of cards dealt from its end. */
  class Deck {
    var cards: seq<Card>

    /** Deck.__init__: the comprehension's 52 cards, then shuffled; `pick` stands for the
        random number generator. */
    constructor (pick: nat -> nat)
      ensures cards == Shuffled(FullDeck(), pick)
      ensures |cards| == 52
      ensures IsStandard(multiset(cards))
    {
      cards := FullDeck();
      new;
      Shuffle(pick);
      FullDeckIsStandard();
    }

    /** Deck.shuffle: random.shuffle in place, as Shuffled describes it. */
    method Shuffle(pick: nat -> nat)
      modifies this
      ensures cards == Shuffled(old(cards), pick)
      ensures |cards| == |old(cards)|
      ensures multiset(cards) == multiset(old(cards))
    {
      var i: nat := |cards|;
      while i > 1
        invariant i <= |cards| == |old(cards)|
        invariant ShuffleUpTo(cards, i, pick) == Shuffled(old(cards), pick)
      {
        i := i - 1;
        var j := pick(i) % (i + 1);
        cards := cards[i := cards[j]][j := cards[i]];
      }
      ShufflePermutes(old(cards), |old(cards)|, pick);
    }

    /** Deck.deal: removes and returns the last card. An empty deck raises IndexError in
        the program; here that is excluded by the precondition. */
    method Deal() returns (c: Card)
      requires |cards| > 0
      modifies this
      ensures c == old(cards)[|old(cards)| - 1]
      ensures cards == old(cards)[..|old(cards)| - 1]
      ensures multiset(cards) + multiset{c} == multiset(old(cards))
    {
      c := cards[|cards| - 1];
      cards := cards[..|cards| - 1];
      assert old(cards) == cards + [c];
    }
  }
}
