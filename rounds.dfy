/** One round of Blackjack: the initial deal, the immediate-blackjack check, the player's
    turn, the dealer's turn and the winner (script.py, class Game). */
module Rounds {
  import opened Cards
  import opened Hands
  import opened Decks
  import opened Players

  /** The winning score and the dealer's stand threshold. */
  const Blackjack := 21
  const DealerStands := 17

  datatype Option<T> = None | Some(value: T)

  /** Who won the round; replaces the printed winner messages. */
  datatype Outcome = PlayerWins | DealerWins | Draw

  /** The player's reply to one "hit or stand" prompt, once it is valid. */
  datatype Decision = Hit | Stand

  /** Game.determine_winner as a decision on the two final totals: a busted player loses
      first, then a busted dealer loses, then the higher total wins and equal totals draw.
      The player's bust is tested first, so a busted player loses even when the dealer
      would bust too. */
  function Winner(player: int, dealer: int): (o: Outcome)
    ensures o == DealerWins <==> player > 21 || (dealer <= 21 && dealer > player)
    ensures o == PlayerWins <==> player <= 21 && (dealer > 21 || player > dealer)
    ensures o == Draw <==> player <= 21 && dealer <= 21 && player == dealer
  {
    if player > Blackjack then DealerWins
    else if dealer > Blackjack then PlayerWins
    else if dealer > player then DealerWins
    else if dealer < player then PlayerWins
    else Draw
  }

  /** Game.is_immediate_blackjack as a decision on the two opening totals: None when
      neither is 21, otherwise the outcome it announces. */
  function BlackjackCheck(player: int, dealer: int): (r: Option<Outcome>)
    ensures r.None? <==> player != 21 && dealer != 21
    ensures r == Some(Draw) <==> player == 21 && dealer == 21
    ensures r == Some(DealerWins) <==> dealer == 21 && player != 21
    ensures r == Some(PlayerWins) <==> player == 21 && dealer != 21
  {
    var dealerBlackjack := dealer == Blackjack;
    var playerBlackjack := player == Blackjack;
    if dealerBlackjack || playerBlackjack then
      if dealerBlackjack && playerBlackjack then Some(Draw)
      else if dealerBlackjack then Some(DealerWins)
      else Some(PlayerWins)
    else None
  }

  /** The announcement made at the opening check is the one the central comparison would
      make on the same totals, as long as neither total is over 21 (two-card hands never
      are, see Hands.TwoCardHand). */
  lemma BlackjackAgreesWithWinner(player: int, dealer: int)
    requires player <= 21 && dealer <= 21
    ensures BlackjackCheck(player, dealer).Some? ==>
              BlackjackCheck(player, dealer).value == Winner(player, dealer)
  {
  }

  /** hand1 is hand0 followed by the next |hand1| - |hand0| cards dealt from the end of
      deck0, and deck1 is what is left of deck0. */
  ghost predicate Dealt(deck0: seq<Card>, hand0: seq<Card>, hand1: seq<Card>, deck1: seq<Card>)
  {
    && |hand0| <= |hand1|
    && |hand1| - |hand0| <= |deck0|
    && hand1 == hand0 + Top(deck0, |hand1| - |hand0|)
    && deck1 == deck0[..|deck0| - (|hand1| - |hand0|)]
  }

  /** The first m prompts were all answered "hit". */
  ghost predicate HitsFirst(answer: nat -> Decision, m: nat)
  {
    forall k :: 0 <= k < m ==> answer(k) == Hit
  }

  lemma HitsFirstStep(answer: nat -> Decision, m: nat)
    requires HitsFirst(answer, m) && answer(m) == Hit
    ensures HitsFirst(answer, m + 1)
  {
  }

  /** The player's turn from hand0 to hand1: every card was drawn on a "hit" answered
      while the hand was worth less than 21, and the turn ended because the hand reached 21
      or the next answer was "stand". answer(k) is the reply to the k-th prompt. */
  ghost predicate PlayerPolicy(hand0: seq<Card>, hand1: seq<Card>, answer: nat -> Decision)
  {
    && |hand0| <= |hand1|
    && hand1[..|hand0|] == hand0
    && (forall n :: |hand0| <= n < |hand1| ==> HandValue(hand1[..n]) < Blackjack)
    && HitsFirst(answer, |hand1| - |hand0|)
    && (HandValue(hand1) >= Blackjack || answer(|hand1| - |hand0|) == Stand)
  }

  /** The dealer's turn from hand0 to hand1: the dealer drew exactly while the hand was
      worth less than 17, so it ends at 17 or more. */
  ghost predicate DealerPolicy(hand0: seq<Card>, hand1: seq<Card>)
  {
    && |hand0| <= |hand1|
    && hand1[..|hand0|] == hand0
    && (forall n :: |hand0| <= n < |hand1| ==> HandValue(hand1[..n]) < DealerStands)
    && HandValue(hand1) >= DealerStands
  }

  lemma TopPrefix(deck: seq<Card>, j: nat, k: nat)
    requires j <= k <= |deck|
    ensures Top(deck, k)[..j] == Top(deck, j)
  {
  }

  /** One more card dealt from the end of the remaining deck extends a dealing. */
  lemma DealtStep(deck0: seq<Card>, hand0: seq<Card>, hand: seq<Card>, deck: seq<Card>)
    requires Dealt(deck0, hand0, hand, deck) && |deck| > 0
    ensures Dealt(deck0, hand0, hand + [deck[|deck| - 1]], deck[..|deck| - 1])
  {
    TopStep(deck0, |hand| - |hand0|);
  }

  /** Drawing onto a hand worth less than `limit` keeps "every hand drawn onto was worth
      less than limit". */
  lemma BelowStep(hand0: seq<Card>, hand: seq<Card>, c: Card, limit: int)
    requires |hand0| <= |hand|
    requires forall n :: |hand0| <= n < |hand| ==> HandValue(hand[..n]) < limit
    requires HandValue(hand) < limit
    ensures forall n :: |hand0| <= n < |hand| + 1 ==> HandValue((hand + [c])[..n]) < limit
  {
    forall n | |hand0| <= n < |hand| + 1
      ensures HandValue((hand + [c])[..n]) < limit
    {
      if n < |hand| {
        assert (hand + [c])[..n] == hand[..n];
      } else {
        assert (hand + [c])[..n] == hand;
      }
    }
  }

  /** The dealer's policy leaves no choice: from the same hand and deck there is only one
      way to play the dealer's turn. */
  lemma DealerPolicyDeterministic(deck0: seq<Card>, hand0: seq<Card>,
                                  hand1: seq<Card>, deck1: seq<Card>,
                                  hand2: seq<Card>, deck2: seq<Card>)
    requires Dealt(deck0, hand0, hand1, deck1) && DealerPolicy(hand0, hand1)
    requires Dealt(deck0, hand0, hand2, deck2) && DealerPolicy(hand0, hand2)
    ensures hand1 == hand2 && deck1 == deck2
  {
    if |hand1| < |hand2| {
      DealtPrefix(deck0, hand0, hand1, deck1, hand2, deck2);
      assert false;
    } else if |hand2| < |hand1| {
      DealtPrefix(deck0, hand0, hand2, deck2, hand1, deck1);
      assert false;
    }
  }

  /** Two hands dealt from the same hand and deck agree on their common length. */
  lemma DealtPrefix(deck0: seq<Card>, hand0: seq<Card>,
                    short: seq<Card>, rest1: seq<Card>, long: seq<Card>, rest2: seq<Card>)
    requires Dealt(deck0, hand0, short, rest1)
    requires Dealt(deck0, hand0, long, rest2)
    requires |short| <= |long|
    ensures long[..|short|] == short
  {
    var k, m := |short| - |hand0|, |long| - |hand0|;
    TopPrefix(deck0, k, m);
    assert long[..|short|] == hand0 + Top(deck0, m)[..k];
  }

  /** A turn in progress: hand is hand0 plus cards dealt in order from the end of deck0,
      deck is what remains, and every hand drawn onto was worth less than `limit`. */
  ghost predicate Drawing(deck0: seq<Card>, hand0: seq<Card>, hand: seq<Card>, deck: seq<Card>,
                          limit: int)
  {
    && Dealt(deck0, hand0, hand, deck)
    && hand[..|hand0|] == hand0
    && (forall n :: |hand0| <= n < |hand| ==> HandValue(hand[..n]) < limit)
  }

  /** Drawing the next card onto a hand worth less than `limit` continues the turn, adds
      at least one point to the base, and leaves a hand worth at most limit + 9. */
  lemma DrawingStep(deck0: seq<Card>, hand0: seq<Card>, hand: seq<Card>, deck: seq<Card>,
                    limit: int)
    requires Drawing(deck0, hand0, hand, deck, limit)
    requires 12 <= limit && HandValue(hand) < limit && |deck| > 0
    ensures Drawing(deck0, hand0, hand + [deck[|deck| - 1]], deck[..|deck| - 1], limit)
    ensures HandValue(hand + [deck[|deck| - 1]]) <= limit + 9
    ensures Base(hand + [deck[|deck| - 1]]) > Base(hand)
  {
    var c := deck[|deck| - 1];
    DealtStep(deck0, hand0, hand, deck);
    BelowStep(hand0, hand, c, limit);
    HitBound(hand, c, limit);
    assert (hand + [c])[..|hand0|] == hand[..|hand0|];
  }

  /** Holding every card exactly once across two hands and a deck, counted card by card,
      is the same as their three multisets together being the standard pack. */
  lemma HeldOnce(p: seq<Card>, q: seq<Card>, d: seq<Card>)
    requires forall c: Card :: Count(p, c) + Count(q, c) + Count(d, c) == 1
    ensures IsStandard(multiset(p) + multiset(q) + multiset(d))
  {
    forall c: Card ensures (multiset(p) + multiset(q) + multiset(d))[c] == 1 {
      CountIsMultiplicity(p, c);
      CountIsMultiplicity(q, c);
      CountIsMultiplicity(d, c);
    }
  }

  /** The i cards d[top], d[top - 2], ..., d[top - 2 * (i - 1)]: what one of two
      participants receives when cards are dealt to them alternately from position top
      downwards. */
  function EveryOther(d: seq<Card>, top: int, i: nat): seq<Card>
    requires i == 0 || (top < |d| && 2 * (i - 1) <= top)
  {
    if i == 0 then [] else EveryOther(d, top, i - 1) + [d[top - 2 * (i - 1)]]
  }

  /** Game: one deck, one player and one dealer for a single round. */
  class Game {
    const deck: Deck
    const player: Player
    const dealer: Player

    /** The two hands are distinct, hands and deck together hold 52 cards, and every
        card is held exactly once by one of them: dealt + remaining = 52, no card repeats. */
    ghost predicate Valid()
      reads deck, player.hand, dealer.hand
    {
      && player.hand != dealer.hand
      && |player.hand.cards| + |dealer.hand.cards| + |deck.cards| == 52
      && forall c: Card :: Count(player.hand.cards, c) + Count(dealer.hand.cards, c)
                           + Count(deck.cards, c) == 1
    }

    /** Game.__init__: a shuffled deck, the named player and the dealer. */
    constructor (name: string, pick: nat -> nat)
      ensures Valid()
      ensures fresh(deck) && fresh(player.hand) && fresh(dealer.hand)
      ensures player.name == name && dealer.name == "Dealer"
      ensures player.hand.cards == [] && dealer.hand.cards == [] && |deck.cards| == 52
      ensures deck.cards == Shuffled(FullDeck(), pick)
    {
      var cards := new Deck(pick);
      deck := cards;
      player := new Player(name);
      dealer := new Player.Dealer();
      new;
      forall c: Card ensures Count(deck.cards, c) == 1 {
        CountIsMultiplicity(deck.cards, c);
      }
    }

    /** Game.deal_initial_cards: two rounds of one card to the player, then one to the
        dealer, all taken from the end of the deck. */
    method DealInitialCards()
      requires Valid()
      requires |deck.cards| >= 4
      modifies deck, player.hand, dealer.hand
      ensures Valid()
      ensures var d, n := old(deck.cards), |old(deck.cards)|;
        && player.hand.cards == old(player.hand.cards) + [d[n - 1], d[n - 3]]
        && dealer.hand.cards == old(dealer.hand.cards) + [d[n - 2], d[n - 4]]
        && deck.cards == d[..n - 4]
    {
      ghost var d, n := deck.cards, |deck.cards|;
      ghost var p0, q0 := player.hand.cards, dealer.hand.cards;
      for i := 0 to 2
        invariant deck.cards == d[..n - 2 * i]
        invariant player.hand.cards == p0 + EveryOther(d, n - 1, i)
        invariant dealer.hand.cards == q0 + EveryOther(d, n - 2, i)
        invariant Valid()
      {
        PlayerHit();
        DealerHit();
      }
    }

    /** Player.hit on the game's deck, as Game.player_hit (without the display) and
        Game.deal_initial_cards do it: the player draws one card, which keeps the round's
        conservation invariant. */
    method PlayerHit()
      requires Valid()
      requires |deck.cards| > 0
      modifies deck, player.hand
      ensures Valid()
      ensures player.hand.cards == old(player.hand.cards) + [old(deck.cards)[|old(deck.cards)| - 1]]
      ensures deck.cards == old(deck.cards)[..|old(deck.cards)| - 1]
    {
      ghost var h := player.hand.cards;
      player.Hit(deck);
      assert player.hand.cards[..|h|] == h;
    }

    /** Player.hit for the dealer on the game's deck, as Game.dealer_hits (without the
        display) and Game.deal_initial_cards do it: the dealer draws one card, which keeps
        the round's conservation invariant. */
    method DealerHit()
      requires Valid()
      requires |deck.cards| > 0
      modifies deck, dealer.hand
      ensures Valid()
      ensures dealer.hand.cards == old(dealer.hand.cards) + [old(deck.cards)[|old(deck.cards)| - 1]]
      ensures deck.cards == old(deck.cards)[..|old(deck.cards)| - 1]
    {
      ghost var h := dealer.hand.cards;
      dealer.Hit(deck);
      assert dealer.hand.cards[..|h|] == h;
    }

    /** Game.determine_winner, without the message: the outcome of the two current totals. */
    method DetermineWinner() returns (o: Outcome)
      ensures o == Winner(HandValue(player.hand.cards), HandValue(dealer.hand.cards))
    {
      var dealersFinal := dealer.hand.Value();
      var playersFinal := player.hand.Value();
      o := Winner(playersFinal, dealersFinal);
    }

    /** Game.is_immediate_blackjack: None when neither opening hand is worth 21, otherwise
        the announced outcome. */
    method IsImmediateBlackjack() returns (r: Option<Outcome>)
      ensures r == BlackjackCheck(HandValue(player.hand.cards), HandValue(dealer.hand.cards))
    {
      var dealerValue := dealer.hand.Value();
      var playerValue := player.hand.Value();
      r := BlackjackCheck(playerValue, dealerValue);
    }

    /** Game.game_setup, without the display: the initial deal, then the blackjack check. */
    method GameSetup() returns (r: Option<Outcome>)
      requires Valid()
      requires |deck.cards| >= 4
      modifies deck, player.hand, dealer.hand
      ensures Valid()
      ensures var d, n := old(deck.cards), |old(deck.cards)|;
        && player.hand.cards == old(player.hand.cards) + [d[n - 1], d[n - 3]]
        && dealer.hand.cards == old(dealer.hand.cards) + [d[n - 2], d[n - 4]]
        && deck.cards == d[..n - 4]
      ensures r == BlackjackCheck(HandValue(player.hand.cards), HandValue(dealer.hand.cards))
    {
      DealInitialCards();
      r := IsImmediateBlackjack();
    }

    /** Game.dealers_turn: the dealer hits while worth less than 17; then both the bust
        branch and the 17..21 branch go to the winner comparison, and no other exit exists.
        The player's hand of at most 21 cards leaves the deck enough cards for every hit. */
    method DealersTurn() returns (o: Outcome)
      requires Valid()
      requires |player.hand.cards| <= 21
      modifies deck, dealer.hand
      ensures Valid()
      ensures Dealt(old(deck.cards), old(dealer.hand.cards), dealer.hand.cards, deck.cards)
      ensures DealerPolicy(old(dealer.hand.cards), dealer.hand.cards)
      ensures |dealer.hand.cards| > |old(dealer.hand.cards)| ==>
                HandValue(dealer.hand.cards) <= 26
      ensures o == Winner(HandValue(player.hand.cards), HandValue(dealer.hand.cards))
    {
      ghost var d0, h0 := deck.cards, dealer.hand.cards;
      var value := dealer.hand.Value();
      while value < DealerStands
        invariant Valid()
        invariant value == HandValue(dealer.hand.cards)
        invariant Drawing(d0, h0, dealer.hand.cards, deck.cards, DealerStands)
        invariant |dealer.hand.cards| > |h0| ==> value <= 26
        decreases DealerStands - Base(dealer.hand.cards)
      {
        CardsAtMostBase(dealer.hand.cards);
        DealerDraw(d0, h0);
        value := dealer.hand.Value();
      }
      if value > Blackjack {
        o := DetermineWinner();
      } else if DealerStands <= value <= Blackjack {
        o := DetermineWinner();
      } else {
        assert false;
      }
    }

    /** One pass of the dealer's loop: a dealer worth less than 17 hits, which continues the
        turn, raises the base and leaves a hand worth at most 26. */
    method DealerDraw(ghost d0: seq<Card>, ghost h0: seq<Card>)
      requires Valid()
      requires |deck.cards| > 0
      requires HandValue(dealer.hand.cards) < DealerStands
      requires Drawing(d0, h0, dealer.hand.cards, deck.cards, DealerStands)
      modifies deck, dealer.hand
      ensures Valid()
      ensures Drawing(d0, h0, dealer.hand.cards, deck.cards, DealerStands)
      ensures HandValue(dealer.hand.cards) <= 26
      ensures |dealer.hand.cards| > |h0|
      ensures Base(dealer.hand.cards) > Base(old(dealer.hand.cards))
    {
      ghost var before, rest := dealer.hand.cards, deck.cards;
      DrawingStep(d0, h0, before, rest, DealerStands);
      DealerHit();
    }

    /** The prompt loop of Game.players_turn: the player is prompted only while worth less
        than 21; "hit" draws a card, "stand" ends the loop. Returns the final value. */
    method PlayerDecides(answer: nat -> Decision) returns (value: nat)
      requires Valid()
      requires |player.hand.cards| == 2 && |dealer.hand.cards| == 2
      modifies deck, player.hand
      ensures Valid()
      ensures value == HandValue(player.hand.cards)
      ensures PlayerPolicy(old(player.hand.cards), player.hand.cards, answer)
      ensures Dealt(old(deck.cards), old(player.hand.cards), player.hand.cards, deck.cards)
      ensures |player.hand.cards| <= 21
    {
      ghost var d0, h0 := deck.cards, player.hand.cards;
      value := player.hand.Value();
      var prompts := 0;
      while value < Blackjack
        invariant Valid()
        invariant value == HandValue(player.hand.cards)
        invariant prompts == |player.hand.cards| - |h0|
        invariant Drawing(d0, h0, player.hand.cards, deck.cards, Blackjack)
        invariant HitsFirst(answer, prompts)
        invariant |player.hand.cards| <= 21
        decreases Blackjack - Base(player.hand.cards)
      {
        match answer(prompts)
        case Hit =>
          HitsFirstStep(answer, prompts);
          ghost var before, rest := player.hand.cards, deck.cards;
          CardsAtMostBase(before);
          DrawingStep(d0, h0, before, rest, Blackjack);
          PlayerHit();
          prompts := prompts + 1;
          value := player.hand.Value();
        case Stand =>
          break;
      }
    }

    /** The end of Game.players_turn: a busted player goes straight to the winner
        comparison and the dealer draws nothing; otherwise the dealer's turn follows. */
    method AfterPlayer(value: nat) returns (o: Outcome)
      requires Valid()
      requires value == HandValue(player.hand.cards) && |player.hand.cards| <= 21
      modifies deck, dealer.hand
      ensures Valid()
      ensures Dealt(old(deck.cards), old(dealer.hand.cards), dealer.hand.cards, deck.cards)
      ensures value > Blackjack ==> dealer.hand.cards == old(dealer.hand.cards)
      ensures value <= Blackjack ==> DealerPolicy(old(dealer.hand.cards), dealer.hand.cards)
      ensures o == Winner(HandValue(player.hand.cards), HandValue(dealer.hand.cards))
    {
      if value > Blackjack {
        o := DetermineWinner();
        assert Dealt(deck.cards, dealer.hand.cards, dealer.hand.cards, deck.cards);
      } else {
        o := DealersTurn();
      }
    }

    /** Game.players_turn: the prompt loop, then AfterPlayer. `mid` is the deck between
        the player's turn and the dealer's. */
    method PlayersTurn(answer: nat -> Decision) returns (o: Outcome, ghost mid: seq<Card>)
      requires Valid()
      requires |player.hand.cards| == 2 && |dealer.hand.cards| == 2
      modifies deck, player.hand, dealer.hand
      ensures Valid()
      ensures PlayerPolicy(old(player.hand.cards), player.hand.cards, answer)
      ensures Dealt(old(deck.cards), old(player.hand.cards), player.hand.cards, mid)
      ensures Dealt(mid, old(dealer.hand.cards), dealer.hand.cards, deck.cards)
      ensures HandValue(player.hand.cards) > Blackjack ==>
                dealer.hand.cards == old(dealer.hand.cards)
      ensures HandValue(player.hand.cards) <= Blackjack ==>
                DealerPolicy(old(dealer.hand.cards), dealer.hand.cards)
      ensures o == Winner(HandValue(player.hand.cards), HandValue(dealer.hand.cards))
    {
      var value := PlayerDecides(answer);
      mid := deck.cards;
      o := AfterPlayer(value);
    }

    /** One round as the program's main loop drives it for a fresh game: set up, and when
        nobody has a blackjack, play the player's turn (which runs the dealer's). Whatever
        path the round takes, its outcome is the winner comparison of the final hands, and
        the deck never runs out. `mid` is the deck between the two turns. */
    method PlayRound(answer: nat -> Decision) returns (o: Outcome, ghost mid: seq<Card>)
      requires Valid()
      requires player.hand.cards == [] && dealer.hand.cards == [] && |deck.cards| == 52
      modifies deck, player.hand, dealer.hand
      ensures Valid()
      ensures |player.hand.cards| >= 2 && |dealer.hand.cards| >= 2
      ensures var d := old(deck.cards);
        player.hand.cards[..2] == [d[51], d[49]] && dealer.hand.cards[..2] == [d[50], d[48]]
      ensures var opening := BlackjackCheck(HandValue(player.hand.cards[..2]),
                                            HandValue(dealer.hand.cards[..2]));
        && (opening.Some? ==> |player.hand.cards| == 2 && |dealer.hand.cards| == 2)
        && (opening.None? ==> PlayerPolicy(player.hand.cards[..2], player.hand.cards, answer))
        && (opening.Some? ==> o == opening.value)
      ensures var d := old(deck.cards);
        var opening := BlackjackCheck(HandValue(player.hand.cards[..2]),
                                      HandValue(dealer.hand.cards[..2]));
        opening.None? ==>
          && Dealt(d[..48], player.hand.cards[..2], player.hand.cards, mid)
          && Dealt(mid, dealer.hand.cards[..2], dealer.hand.cards, deck.cards)
          && (HandValue(player.hand.cards) > Blackjack ==> |dealer.hand.cards| == 2)
          && (HandValue(player.hand.cards) <= Blackjack ==>
                DealerPolicy(dealer.hand.cards[..2], dealer.hand.cards))
      ensures o == Winner(HandValue(player.hand.cards), HandValue(dealer.hand.cards))
    {
      var opening := GameSetup();
      assert player.hand.cards[..2] == player.hand.cards;
      assert dealer.hand.cards[..2] == dealer.hand.cards;
      if opening.Some? {
        var p, d := player.hand.cards, dealer.hand.cards;
        assert p == [p[0], p[1]] && d == [d[0], d[1]];
        TwoCardHand(p[0], p[1]);
        TwoCardHand(d[0], d[1]);
        BlackjackAgreesWithWinner(HandValue(p), HandValue(d));
        o := opening.value;
        mid := deck.cards;
      } else {
        ghost var p2, d2 := player.hand.cards, dealer.hand.cards;
        o, mid := PlayersTurn(answer);
        assert player.hand.cards[..2] == p2;
        assert dealer.hand.cards[..2] == d2;
      }
    }
  }
}
