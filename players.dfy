/** A participant: a name and one hand (script.py, classes Player and Dealer). */
module Players {
  import opened Cards
  import opened Hands
  import opened Decks

  class Player {
    const name: string
    const hand: Hand

    /** Player.__init__: a named player with an empty hand. */
    constructor (name: string)
      ensures this.name == name
      ensures fresh(hand) && hand.cards == []
    {
      this.name := name;
      hand := new Hand();
    }

    /** Dealer.__init__: the dealer is a player whose name is fixed. */
    constructor Dealer()
      ensures name == "Dealer"
      ensures fresh(hand) && hand.cards == []
    {
      name := "Dealer";
      hand := new Hand();
    }

    /** Player.hit: the deck's last card moves to the end of the hand; nothing else in
        either changes, and no card is created or lost. */
    method Hit(deck: Deck)
      requires |deck.cards| > 0
      modifies deck, hand
      ensures hand.cards == old(hand.cards) + [old(deck.cards)[|old(deck.cards)| - 1]]
      ensures deck.cards == old(deck.cards)[..|old(deck.cards)| - 1]
      ensures |hand.cards| + |deck.cards| == old(|hand.cards| + |deck.cards|)
      ensures multiset(hand.cards) + multiset(deck.cards)
           == old(multiset(hand.cards) + multiset(deck.cards))
    {
      var card := deck.Deal();
      hand.AddCard(card);
    }
  }
}
