# Blackjack rules engine — a Dafny model

This project models the rules engine of a single-player Blackjack game
(`blackjack_GUI.py`). It covers the cards, the 52-card deck (built in a fixed
order, shuffled in place, dealt from the front), the hands with their scoring,
and the `GameState` round: the opening deal, the Blackjack check, hitting,
the table snapshot shown during play and the stand comparison.

The files:

- `cards.dfy` (module `Cards`): suits, ranks, cards and the points per rank.
- `deck.dfy` (module `Decks`): the fresh deck and its layout, the shuffle and the `Deck` class.
- `hand.dfy` (module `Hands`): the scoring functions, their lemmas and the `Hand` class.
- `game.dfy` (module `Game`): winner codes, snapshots, the winner rules and the `GameState` class.

Modelling choices:

- A card is the pair (suit, rank). A rank is `Ace`, `Pip(n)` for the numeric
  ranks 2 to 10, `Jack`, `Queen` or `King`. The deck is built as the source
  builds it. Suits come first, in the order Spades, Clubs, Hearts, Diamonds.
  Within each suit the ranks run A, 2, …, 10, J, Q, K.
- `Deck`, `Hand` and `GameState` are classes whose fields the methods update,
  as in the source. Each method is proved against a pure function: `HandValue`,
  `Shuffled`, `Blackjack`, `AfterHit`, `Snapshot` or `Outcome`. The properties
  are proved as lemmas about those functions.
- The winner codes are `Nobody`, `Player`, `Dealer` and `Push`. `Nobody`
  stands for both the empty string and `False`, which the source only ever
  tests for truth. `Player` is `'p'`, `Dealer` is `'d'` and `Push` is `'dp'`.
- `random.shuffle` is library code. The model runs the swap passes of the
  Fisher–Yates scheme, and the parameter `roll` supplies each random draw.
  Only the permutation property is proved.
- `calculate_final_state` returns its result without storing it, and `hit`
  deals even after a winner is stored. The model does the same.
- `deal` never hands out the deck's last card, because it only acts when more
  than one card remains. So the opening deal needs at least five cards:
  `DealOpeningHands` requires that.

## Model

| member | source | states |
|---|---|---|
| Cards.Points | blackjack_GUI.py:66-74 | a card scores 2 to 11 points. It scores 11 exactly for an Ace, and 10 exactly for a 10, J, Q or K. A numeric rank scores its face value |
| Decks.FullDeck | blackjack_GUI.py:34-41 | the fresh deck holds 4 × 13 = 52 cards |
| Decks.FullDeckLayout | blackjack_GUI.py:34-41 | card number 13·s + r has the s-th suit and the r-th rank, so the order is suit-major and rank-minor |
| Decks.FullDeckComplete | blackjack_GUI.py:34-41 | every (suit, rank) pair is in the fresh deck |
| Decks.FullDeckDistinct | blackjack_GUI.py:34-41 | no card of the fresh deck appears twice |
| Decks.FullDeckMultiplicity | blackjack_GUI.py:34-41 | as a multiset, the fresh deck is exactly one copy of every card |
| Decks.DistinctMultiplicity | blackjack_GUI.py:34-41 | in a sequence of distinct cards, each card occurs once or not at all |
| Decks.SwapPasses | blackjack_GUI.py:46 | the swap passes that `random.shuffle` runs, from position `i` down to 1, each exchanging that position with a drawn one. The result has the input's length |
| Decks.Shuffled | blackjack_GUI.py:44-46 | the order the guarded shuffle leaves. It has the input's length, and a deck of 0 or 1 cards is left as it was |
| Decks.SwapPassesPermutation | blackjack_GUI.py:46 | the shuffle's swap passes keep the same multiset of cards |
| Decks.ShuffledPermutation | blackjack_GUI.py:44-46 | the shuffle keeps the length and the multiset of cards, and does nothing to a deck of 0 or 1 cards |
| Decks.Deck.constructor | blackjack_GUI.py:31-41 | a new deck holds the fresh deck in construction order |
| Decks.Deck.Shuffle | blackjack_GUI.py:44-46 | the new order is `Shuffled` of the old one: the same cards and length, unchanged when at most one card remains |
| Decks.Deck.Deal | blackjack_GUI.py:49-51 | with more than one card, it returns the former front card and leaves the rest in order. Otherwise it returns nothing and leaves the deck unchanged |
| Hands.RawTotal | blackjack_GUI.py:64-74 | the raw total, with every Ace at 11, lies between 2 and 11 points per card |
| Hands.HasAce | blackjack_GUI.py:65-71 | the `has_ace` flag after the loop. It is false for an empty hand |
| Hands.AceFlag | blackjack_GUI.py:65-71 | the `has_ace` flag is set exactly when some card of the hand is an Ace |
| Hands.HandValue | blackjack_GUI.py:76-77 | the score is the raw total minus at most 10. It differs from the raw total exactly when the hand holds an Ace and the raw total exceeds 21 |
| Hands.RawTotalAppend | blackjack_GUI.py:66-74 | adding a card adds its points to the raw total. The hand then holds an Ace exactly when it did before or the new card is one |
| Hands.BustIsPermanent | blackjack_GUI.py:63-77 | a hand over 21 stays over 21 whatever card is added |
| Hands.NaturalBlackjack | blackjack_GUI.py:63-77 | two cards score 21 exactly when one is an Ace and the other is worth ten (A+A scores 12) |
| Hands.TwoAcesExamples | blackjack_GUI.py:76-77 | {A,A,9} scores 21 and {A,A} scores 12, because the correction is taken once |
| Hands.BustAfterCorrectionExample | blackjack_GUI.py:76-77 | {A,K,K,K} scores 31 |
| Hands.TwoCardExamples | blackjack_GUI.py:63-77 | {2,9} scores 11, {A,9} 20, {K,Q} 20 and {A,K} 21 |
| Hands.BustExample | blackjack_GUI.py:63-77 | {10,5,7} scores 22 |
| Hands.Hand.constructor | blackjack_GUI.py:55-58 | a new hand has the given dealer flag, no cards and a cached value of 0 |
| Hands.Hand.AddCard | blackjack_GUI.py:60-61 | the card is appended at the end and the earlier cards are unchanged |
| Hands.Hand.CalculateValue | blackjack_GUI.py:63-77 | the loop leaves `HandValue` of the cards in the value field |
| Hands.Hand.GetValue | blackjack_GUI.py:79-81 | it recomputes the value field and returns `HandValue` of the cards |
| Game.Blackjack | blackjack_GUI.py:106-122 | the result is `Push` when both scores are 21, `Player` when only the player's is, `Dealer` when only the dealer's is, and `Nobody` otherwise (each case as an if-and-only-if) |
| Game.Outcome | blackjack_GUI.py:159-164 | the stand result is never `Nobody`. It is `Push` exactly on equal scores, `Player` exactly when the player's score is higher, and `Dealer` exactly when it is lower |
| Game.OutcomeSymmetric | blackjack_GUI.py:159-164 | exchanging the two scores exchanges player and dealer in the stand result |
| Game.AfterHit | blackjack_GUI.py:127-130 | after a hit the stored winner is `Dealer` on a score over 21 and `Player` on a 21 the dealer does not match. Under 21, or when both hold 21, it stays as it was |
| Game.BustStaysWithDealer | blackjack_GUI.py:125-132 | once the player is bust, every further hit stores `Dealer` |
| Game.Snapshot | blackjack_GUI.py:135-151 | the snapshot carries both card lists. Its blackjack flag is set exactly when no winner is stored and someone holds 21. Its winner is the stored winner if there is one, and the Blackjack code otherwise |
| Game.ConservedPlaces | blackjack_GUI.py:85-99 | when the deck and hands together make up one fresh deck, there are 52 cards and every card lies in exactly one place, once |
| Game.OpeningDealConserves | blackjack_GUI.py:94-97 | dealing the first four cards to the two hands keeps every card |
| Game.MoveFrontCardConserves | blackjack_GUI.py:125-126 | moving the deck's front card to the player keeps every card |
| Game.DealOpeningHands | blackjack_GUI.py:94-97 | the player gets cards 1 and 3 of the deck, the dealer gets cards 2 and 4, and the deck keeps the rest in order |
| Game.GameState.constructor | blackjack_GUI.py:85-99 | the deck is the shuffled fresh deck minus its first four cards, which leaves 48. The player holds shuffled cards 1 and 3, the dealer 2 and 4. No winner is stored, and the invariant holds: every card is in exactly one place and no push is stored |
| Game.GameState.PlayerIsOver | blackjack_GUI.py:102-103 | true exactly when the player's score exceeds 21 |
| Game.GameState.SomeoneHasBlackjack | blackjack_GUI.py:106-122 | returns `Blackjack` of the two current scores and stores nothing |
| Game.GameState.Hit | blackjack_GUI.py:125-132 | with more than one card in the deck, the player gets the deck's front card and the deck loses it. The dealer's cards are unchanged. The stored winner becomes `AfterHit` of the new scores, and the invariant is kept |
| Game.GameState.GetTableState | blackjack_GUI.py:135-151 | returns `Snapshot` of the current cards and stored winner. Scores are recomputed only when no winner is stored. No cards and no stored winner change |
| Game.GameState.CalculateFinalState | blackjack_GUI.py:154-172 | returns both card lists and `Outcome` of the two scores. No cards and no stored winner change |

## Left out

- The tkinter interface is not modelled (`GameScreen`, blackjack_GUI.py:179-310, and the main loop, 313-315). It is window layout, drawing and button callbacks.
- Card images are not modelled (`tk.PhotoImage` in `Card.__init__`, `get_file`, `get_back_file`). They are file I/O.
- `Card.__repr__` and `player_score_as_text` are not modelled. They only format text for display.
- Decks.Deck.Shuffle: the random draws are a parameter, so nothing is claimed about their distribution. It is also not proved that every permutation can be produced.
- Game.GameState.Hit: when the deck holds one card or none, the source appends `None` to the player's hand, then fails with an `AttributeError` while scoring it. The model reports `NoCardLeft` and changes nothing. A round uses far fewer than 51 cards, so play never reaches this.
- Game.DealOpeningHands: requires more than four cards. It is only called on a freshly shuffled 52-card deck, so the source's path that appends `None` during the opening deal is not modelled.
- Game.GameState.GetTableState: the source's dictionary holds references to the live card lists, so later hits show through it. The model's snapshot is a value copy.
- Game.GameState.CalculateFinalState: the source's dictionary also holds references to the live card lists. The model's result is a value copy.
- The `dealer` flag of a hand is kept, but nothing in the source reads it.
