# Blackjack, modelled in Dafny

This project models the core of a terminal Blackjack game. The game uses one 52-card deck, one
human player against the dealer, and no bets. The model covers:

- the point value of a card (`Cards`);
- the deck: built rank by rank, shuffled in place, dealt from its end (`Decks`);
- a hand and its value with the Ace adjustment (`Hands`);
- a participant and its hit (`Players`);
- one round of play (`Rounds`).

A round runs in this order:

1. The initial deal.
2. The immediate-blackjack check.
3. The player's hit/stand loop.
4. The dealer drawing to 17.
5. The winner comparison.

The deck, the hands and the players are classes whose fields the methods update in place, as in
the program. The card value, the hand value and the two decisions (the opening blackjack check
and the winner comparison) are functions. The methods that compute a value or an outcome are
proved against these functions: `Hand.Value`, `IsImmediateBlackjack`, `DetermineWinner`,
`GameSetup`, the two turns and `PlayRound`. `Deck.Shuffle` is proved against the function
`Shuffled`. The other methods and the constructors are specified by the new state they produce.

The round keeps one conservation invariant, `Rounds.Game.Valid`:

- the two hands and the deck together hold 52 cards;
- every card of the standard pack is held exactly once.

Every state-changing game method preserves `Valid`. Every hit is proved to find a non-empty deck.

The player's replies are a parameter `answer: nat -> Decision`, where `answer(k)` is the valid
reply to the k-th prompt. The random generator is a parameter `pick: nat -> nat`. Every printed
message is dropped. Where the game printed who won, the model returns an `Outcome` instead.

Two points about the program's behaviour:

- **Empty deck.** The program has no error of its own for an empty deck: `list.pop` raises
  `IndexError` inside `Deck.deal`. The model makes a non-empty deck a precondition of `Deal` and
  `Hit`. It then proves that no method of a round can reach an empty deck: the player holds at
  most 21 cards, and the dealer draws only while below 17.
- **Ace adjustment.** The Ace loop never under-promotes: its value is the best total not over 21
  that any choice of Aces counted as 11 can reach. Two lemmas prove this together.
  `Hands.ValueIsBestTotal` proves that the value is at least every such total and at most 21.
  `Hands.ValueShape` proves that the value is itself one of them: the all-ones base, or the base
  with one Ace counted as 11. It also proves that the value is the base when that busts. The loop
  promotes at most one Ace, because two promoted Aces already exceed 21.

## Model

| member | source | states |
|---|---|---|
| Cards.RanksAtOrdinal | script.py:35-49 | The rank list has 13 entries and holds each rank exactly once, at its ordinal position. |
| Cards.SuitsAtOrdinal | script.py:50 | The suit list has 4 entries and holds each suit exactly once, at its ordinal position. |
| Cards.IndexOf | script.py:64 | `list.index` returns a position holding the element, with no earlier occurrence of it. |
| Cards.IndexOfRank | script.py:35-49 | Every rank is in the rank list, and `index` finds it at its ordinal. |
| Cards.Points | script.py:57-64 | A card is worth 1 to 10 points. It is worth 1 exactly for an Ace. It is worth 10 exactly for Ten, Jack, Queen and King. |
| Cards.PipPointsAreFaceNumbers | script.py:63-64 | Two to Ten are worth their face number, written out independently of the rank list. |
| Decks.FullDeck | script.py:75 | The comprehension over ranks and then suits yields 52 cards. |
| Decks.FullDeckLayout | script.py:75 | The comprehension is rank-major: card (r, s) lies at position 4 * ordinal(r) + ordinal(s). |
| Decks.FullDeckAt | script.py:75 | Position 4 * i + j of the built deck holds the i-th rank in the j-th suit. |
| Decks.FullDeckDistinct | script.py:75 | No card is built twice. |
| Decks.FullDeckIsStandard | script.py:74-75 | The unshuffled deck holds every one of the 52 cards exactly once. |
| Decks.ShufflePermutes | script.py:78-80 | Whatever the generator returns, shuffling keeps the length and the multiset of cards. |
| Decks.Deck.Shuffle | script.py:78-80 | The in-place swap loop produces the Fisher-Yates shuffle of the old cards, with the same length and the same cards. |
| Decks.Deck.constructor | script.py:73-76 | A new deck is the shuffled comprehension: 52 cards, each card exactly once. |
| Decks.Deck.Deal | script.py:82-84 | Deal returns the last card and removes it. The remaining cards plus the card are the old cards. |
| Decks.TopConserves | script.py:82-84 | After k deals, the cards dealt and the cards left together are exactly the original deck. |
| Hands.Hand.constructor | script.py:89-91 | A new hand is empty. |
| Hands.Hand.AddCard | script.py:93-95 | The card is appended at the end, and the earlier cards are unchanged. |
| Hands.Hand.Value | script.py:97-105 | The summing loops and the Ace loop compute the closed-form value: the all-ones base, plus 10 exactly when the hand holds an Ace and the base is at most 11. |
| Hands.ValueShape | script.py:102-104 | The value is the base or the base plus 10, and plus 10 exactly when the hand has an Ace and a base of at most 11. A hand busts exactly when its base busts. |
| Hands.ValueIsBestTotal | script.py:97-105 | For any number of Aces counted as 11 that stays at or under 21, the value is at least that total and at most 21. |
| Hands.CardsAtMostBase | script.py:99-100 | Every card is worth at least one point, so the number of cards and the number of Aces are at most the base. |
| Hands.ValueIgnoresOrder | script.py:97-105 | Two hands holding the same cards in any order have the same value. |
| Hands.TwoCardHand | script.py:171-194 | A two-card hand never busts. It is worth 21 exactly when it is an Ace and a ten-point card. |
| Hands.HitBound | script.py:204-207 | A hit on a hand worth less than a limit of at least 12 leaves a hand worth at most the limit plus 9, and it raises the base. |
| Players.Player.constructor | script.py:118-121 | A player has the given name and a fresh empty hand. |
| Players.Player.Dealer | script.py:145-147 | The dealer is a player named "Dealer" with a fresh empty hand. |
| Players.Player.Hit | script.py:123-126 | The deck's last card moves to the end of the hand, and nothing else in either changes. The lengths and the multisets of cards are conserved. |
| Rounds.Winner | script.py:241-255 | Iff conditions for each outcome. The dealer wins iff the player busts, or the dealer does not bust and is higher. The player wins iff the player does not bust and the dealer busts or is lower. A draw iff both are at most 21 and equal. |
| Rounds.BlackjackCheck | script.py:177-194 | No announcement iff neither total is 21. A push iff both are 21. The dealer wins iff only the dealer has 21. The player wins iff only the player has 21. |
| Rounds.BlackjackAgreesWithWinner | script.py:177-194 | When neither total is over 21, the opening announcement names the outcome the winner comparison would give. |
| Rounds.DealtStep | script.py:82-84 | Dealing one more card from the end of the remaining deck extends a hand dealt from a deck. |
| Rounds.BelowStep | script.py:204-207 | Drawing onto a hand worth less than a limit keeps "every hand drawn onto was below the limit". |
| Rounds.DrawingStep | script.py:229-230 | One hit during a turn keeps the turn's invariant, raises the base, and keeps the value at most the limit plus 9. |
| Rounds.DealtPrefix | script.py:82-84 | Two hands dealt from the same deck agree on their common length. |
| Rounds.DealerPolicyDeterministic | script.py:229-231 | From the same hand and deck, the dealer's turn has only one possible outcome. |
| Rounds.HeldOnce | script.py:73-84 | Holding each card exactly once, counted across two hands and a deck, means that their multisets together form the standard pack. |
| Rounds.Game.constructor | script.py:155-159 | A new game has a fresh shuffled 52-card deck, the named player, the dealer, and two empty hands. It satisfies the conservation invariant. |
| Rounds.Game.PlayerHit | script.py:267-269 | The player draws the deck's last card. The conservation invariant is kept. |
| Rounds.Game.DealerHit | script.py:274-276 | The dealer draws the deck's last card. The conservation invariant is kept. |
| Rounds.Game.DealInitialCards | script.py:171-175 | The cards go out alternately: the player gets cards n-1 and n-3, the dealer gets n-2 and n-4, and the deck keeps its first n-4 cards. The conservation invariant is kept. |
| Rounds.Game.IsImmediateBlackjack | script.py:177-194 | The result is the opening check of the two hands' values. |
| Rounds.Game.GameSetup | script.py:161-169 | The initial deal followed by the opening check of the dealt hands. |
| Rounds.Game.DetermineWinner | script.py:241-255 | The result is the winner comparison of the two hands' values. |
| Rounds.Game.PlayerDecides | script.py:203-210 | The player draws only while worth less than 21 and answering "hit". The loop stops at 21 or more, or at a "stand". The cards come from the end of the deck, the hand holds at most 21 cards, and the conservation invariant is kept. |
| Rounds.Game.DealersTurn | script.py:220-239 | The dealer draws exactly while worth less than 17, from the end of the deck. A dealer who drew ends at 17 to 26. Both remaining branches reach the winner comparison; the third case is unreachable. |
| Rounds.Game.DealerDraw | script.py:229-230 | One pass of the dealer's loop: a dealer worth less than 17 hits, continuing the turn from the deck's end. The base grows, the value stays at most 26, and the conservation invariant is kept. |
| Rounds.Game.AfterPlayer | script.py:213-218 | A busted player goes straight to the comparison, with the dealer's hand and the deck untouched. Otherwise the dealer plays to 17 from the deck's end. The outcome is the comparison of the final hands. |
| Rounds.Game.PlayersTurn | script.py:196-218 | The player's loop, then one of two paths. A bust goes straight to the comparison with the dealer's hand untouched. Otherwise the dealer plays to 17. The player's cards and then the dealer's come off the deck's end. The outcome is the comparison of the final hands. |
| Rounds.Game.PlayRound | script.py:301-313 | A fresh game deals the opening cards from the deck's end. A blackjack ends the round on two cards, and the outcome is the one the opening check announces. Otherwise the player's policy is followed, and the later cards come off the end of the remaining deck: first the player's, then the dealer's. After a player bust the dealer keeps its two cards. Otherwise the dealer plays to 17. The outcome is always the comparison of the final hands, and the deck never runs out. |

## Left out

- Printing is not modelled. This covers `clear_screen`, the dividers, `Hand.show`, `Player.show`, `Player.stand`, `Game.dealer_busts`, `Game.winner_message` and the messages inside the turns. None of them change the game state.
- `Card.__repr__` is not modelled. It only formats a card for display.
- `Game.get_players_decision` reads the terminal. It is replaced by the parameter `answer`, which gives the valid reply to each prompt. The re-prompting on invalid input is not modelled. Neither is the detail that only the first reading is stripped of blanks.
- `random.shuffle` is modelled as the swap sequence of CPython's Fisher-Yates loop. The generator is the parameter `pick`, so the uniform distribution is not modelled. Neither is the rejection sampling inside `randbelow`: `pick(i) % (i + 1)` stands for its result.
- The `__main__` loop is modelled as a single round on a fresh game (`Rounds.Game.PlayRound`). The name prompt, the "exit" check and the repetition are terminal I/O.
- Players.Player.constructor: the default name "Player" is not modelled. The game always passes a name.
- Rounds.Game.IsImmediateBlackjack: it returns `Option<Outcome>` instead of a bool plus a printed message. `Some` corresponds to `True`.
- Decks.Deck.Deal: an empty deck raises `IndexError` in the program. Here it is a precondition, and every game method proves that the precondition holds.
- Rounds.Game.PlayerHit and Rounds.Game.DealerHit: the initial deal calls `Player.hit` directly. The model uses these wrappers, which perform the same hit without the display.
