/** A participant's hand and its value with the Ace adjustment (script.py, class Hand). */
module Hands {
  import opened Cards

  /** Sum of f over the cards, folded from the left as Python's sum() does. */
  function Tally(s: seq<Card>, f: Card -> nat): nat
  {
    if s == [] then 0 else Tally(s[..|s| - 1], f) + f(s[|s| - 1])
  }

  function AceIndicator(c: Card): nat
  {
    if c.rank == Ace then 1 else 0
  }

  /** The hand total with every Ace counted as 1. */
  function Base(s: seq<Card>): nat
  {
    Tally(s, Points)
  }

  /** The number of Aces in the hand. */
  function AceCount(s: seq<Card>): nat
  {
    Tally(s, AceIndicator)
  }

  /** The value of a hand in closed form: one Ace counts 11 exactly when the hand
      holds an Ace and the all-ones total is at most 11. */
  function HandValue(s: seq<Card>): nat
  {
    Base(s) + if AceCount(s) > 0 && Base(s) <= 11 then 10 else 0
  }

  lemma {:induction false} TallyAppend(s: seq<Card>, t: seq<Card>, f: Card -> nat)
    ensures Tally(s + t, f) == Tally(s, f) + Tally(t, f)
    decreases |t|
  {
    if t == [] {
      assert s + t == s;
    } else {
      var u := t[..|t| - 1];
      assert (s + t)[..|s + t| - 1] == s + u;
      TallyAppend(s, u, f);
    }
  }

  /** Adding one card adds exactly its point value and its Ace count. */
  lemma TallySnoc(s: seq<Card>, c: Card, f: Card -> nat)
    ensures Tally(s + [c], f) == Tally(s, f) + f(c)
  {
    assert (s + [c])[..|s|] == s;
  }

  /** Sums do not depend on the order of the cards. */
  lemma {:induction false} TallyPermutation(s: seq<Card>, t: seq<Card>, f: Card -> nat)
    requires multiset(s) == multiset(t)
    ensures Tally(s, f) == Tally(t, f)
    decreases |s|
  {
    if s != [] {
      var x := s[|s| - 1];
      var s' := s[..|s| - 1];
      assert s == s' + [x];
      assert x in multiset(t);
      var k :| 0 <= k < |t| && t[k] == x;
      var t' := t[..k] + t[k + 1..];
      assert t == t[..k] + [x] + t[k + 1..];
      assert multiset(t) == multiset(t[..k]) + multiset{x} + multiset(t[k + 1..]);
      assert multiset(s) == multiset(s') + multiset{x};
      assert multiset(t') == multiset(t[..k]) + multiset(t[k + 1..]);
      assert multiset(s') == multiset(s) - multiset{x};
      assert multiset(t') == multiset(t) - multiset{x};
      TallyPermutation(s', t', f);
      TallyAppend(t[..k] + [x], t[k + 1..], f);
      TallyAppend(t[..k], t[k + 1..], f);
      TallySnoc(t[..k], x, f);
    }
  }

  /** Every card is worth at least one point, so a hand never holds more cards than its base. */
  lemma {:induction false} CardsAtMostBase(s: seq<Card>)
    ensures |s| <= Base(s)
    ensures AceCount(s) <= Base(s)
  {
    if s != [] {
      CardsAtMostBase(s[..|s| - 1]);
    }
  }

  /** The value is the base, or the base plus 10; at most one Ace is promoted, and a
      hand whose base does not bust never has a busting value. */
  lemma ValueShape(s: seq<Card>)
    ensures HandValue(s) == Base(s) || HandValue(s) == Base(s) + 10
    ensures HandValue(s) == Base(s) + 10 <==> AceCount(s) > 0 && Base(s) <= 11
    ensures Base(s) <= 21 ==> HandValue(s) <= 21
    ensures HandValue(s) > 21 <==> Base(s) > 21
  {
  }

  /** Soft/hard semantics, with ValueShape: the value is at least every total not over 21
      obtainable by counting some of the Aces as 11, and it is at most 21 when such a total
      exists. ValueShape adds that the value is itself one of the totals (the base, or the
      base with one Ace counted as 11) and that it is the all-ones base when that busts. */
  lemma {:induction false} ValueIsBestTotal(s: seq<Card>, promoted: nat)
    requires promoted <= AceCount(s)
    requires Base(s) + 10 * promoted <= 21
    ensures Base(s) + 10 * promoted <= HandValue(s) <= 21
  {
    CardsAtMostBase(s);
    BestTotal(Base(s), AceCount(s), HandValue(s), promoted);
  }

  /** The arithmetic behind ValueIsBestTotal: with at least one point per Ace, two Aces
      counted as 11 already exceed 21, so promoting one Ace is the most that can help. */
  lemma BestTotal(base: nat, aces: nat, value: nat, promoted: nat)
    requires aces <= base && promoted <= aces && base + 10 * promoted <= 21
    requires value == base + if aces > 0 && base <= 11 then 10 else 0
    ensures base + 10 * promoted <= value <= 21
  {
  }

  /** The value depends only on which cards are held, not on their order. */
  lemma ValueIgnoresOrder(s: seq<Card>, t: seq<Card>)
    requires multiset(s) == multiset(t)
    ensures HandValue(s) == HandValue(t)
  {
    TallyPermutation(s, t, Points);
    TallyPermutation(s, t, AceIndicator);
  }

  /** The totals of a two-card hand are the sums over its two cards. */
  lemma TwoCardTotals(a: Card, b: Card)
    ensures Base([a, b]) == Points(a) + Points(b)
    ensures AceCount([a, b]) == AceIndicator(a) + AceIndicator(b)
  {
    assert [a, b] == [a] + [b];
    assert [a] == [] + [a];
    TallySnoc([a], b, Points);
    TallySnoc([a], b, AceIndicator);
    TallySnoc([], a, Points);
    TallySnoc([], a, AceIndicator);
  }

  /** A two-card hand never busts, and it is worth 21 exactly when it is an Ace and a
      ten-point card. */
  lemma TwoCardHand(a: Card, b: Card)
    ensures HandValue([a, b]) <= 21
    ensures HandValue([a, b]) == 21 <==>
              (a.rank == Ace && Points(b) == 10) || (b.rank == Ace && Points(a) == 10)
  {
    TwoCardTotals(a, b);
  }

  /** Drawing one card onto a hand that is worth less than `limit` gives a hand worth at
      most limit + 9: 21 + 9 for the player, 17 + 9 for the dealer. */
  lemma HitBound(s: seq<Card>, c: Card, limit: nat)
    requires 12 <= limit
    requires HandValue(s) < limit
    ensures HandValue(s + [c]) <= limit + 9
    ensures Base(s + [c]) > Base(s)
  {
    TallySnoc(s, c, Points);
    TallySnoc(s, c, AceIndicator);
  }

  /** A hand: an append-only list of cards. */
  class Hand {
    var cards: seq<Card>

    constructor ()
      ensures cards == []
    {
      cards := [];
    }

    /** Hand.add_card. */
    method AddCard(c: Card)
      modifies this
      ensures cards == old(cards) + [c]
    {
      cards := cards + [c];
    }

    /** Hand.value: sums the points and counts the Aces, then promotes Aces by 10
        while the total is at most 11. */
    method Value() returns (total: nat)
      ensures total == HandValue(cards)
    {
      total := 0;
      var aces := 0;
      for i := 0 to |cards|
        invariant total == Base(cards[..i])
        invariant aces == AceCount(cards[..i])
      {
        assert cards[..i + 1] == cards[..i] + [cards[i]];
        TallySnoc(cards[..i], cards[i], Points);
        TallySnoc(cards[..i], cards[i], AceIndicator);
        total := total + Points(cards[i]);
        aces := aces + if cards[i].rank == Ace then 1 else 0;
      }
      assert cards[..|cards|] == cards;
      ghost var base, allAces := total, aces;
      while total <= 11 && aces > 0
        invariant aces <= allAces
        invariant (total == base && aces == allAces)
               || (total == base + 10 && aces == allAces - 1 && allAces > 0 && base <= 11)
      {
        total := total + 10;
        aces := aces - 1;
      }
    }
  }
}
