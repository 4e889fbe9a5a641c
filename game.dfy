/**
 * One round of the game: a shuffled deck, the player's hand and the
 * dealer's hand, and the winner stored so far. Hitting may store a
 * winner; the opening Blackjack check and the stand comparison only
 * report one.
 */
module Game {
  import opened Cards
  import opened Decks
  import opened Hands

  /**
   * A winner code: `Nobody` for the empty string and for `False`,
   * `Player` for "p", `Dealer` for "d" and `Push` for "dp".
   */
  datatype Winner = Nobody | Player | Dealer | Push

  /** The view of the table reported while the round is being played. */
  datatype TableState = TableState(
    playerCards: seq<Card>,
    dealerCards: seq<Card>,
    winner: Winner,
    blackjack: bool)

  /** The view of the table reported when the player stands. */
  datatype FinalState = FinalState(
    playerCards: seq<Card>,
    dealerCards: seq<Card>,
    winner: Winner)

  /** What a hit reports: the stored winner, or that no card could be dealt. */
  datatype HitOutcome = Played(winner: Winner) | NoCardLeft

  /** Who, given the two scores, holds 21. */
  function Blackjack(playerValue: int, dealerValue: int): (w: Winner)
    ensures w == Push <==> playerValue == 21 && dealerValue == 21
    ensures w == Player <==> playerValue == 21 && dealerValue != 21
    ensures w == Dealer <==> playerValue != 21 && dealerValue == 21
    ensures w == Nobody <==> playerValue != 21 && dealerValue != 21
  {
    var player := playerValue == 21;
    var dealer := dealerValue == 21;
    if dealer && player then Push
    else if player then Player
    else if dealer then Dealer
    else Nobody
  }

  /** The stand comparison: equal scores push, otherwise the higher score wins. */
  function Outcome(playerValue: int, dealerValue: int): (w: Winner)
    ensures w != Nobody
    ensures w == Push <==> playerValue == dealerValue
    ensures w == Player <==> playerValue > dealerValue
    ensures w == Dealer <==> playerValue < dealerValue
  {
    if playerValue == dealerValue then Push
    else if playerValue > dealerValue then Player
    else Dealer
  }

  /** The same winner seen from the other side of the table. */
  function Mirror(w: Winner): Winner
  {
    match w
    case Player => Dealer
    case Dealer => Player
    case _ => w
  }

  /** Exchanging the two scores exchanges the winner of the stand comparison. */
  lemma OutcomeSymmetric(playerValue: int, dealerValue: int)
    ensures Outcome(dealerValue, playerValue) == Mirror(Outcome(playerValue, dealerValue))
  {
  }

  /**
   * The stored winner after the player has taken a card and scores
   * `playerValue`: the dealer on a bust, the player on a 21 the dealer
   * does not match, and otherwise whatever was stored before.
   */
  function AfterHit(stored: Winner, playerValue: int, dealerValue: int): (w: Winner)
    ensures playerValue > 21 ==> w == Dealer
    ensures playerValue == 21 && dealerValue != 21 ==> w == Player
    ensures playerValue < 21 || (playerValue == 21 && dealerValue == 21) ==> w == stored
  {
    var w := if Blackjack(playerValue, dealerValue) == Player then Player else stored;
    if playerValue > 21 then Dealer else w
  }

  /**
   * Once the player is bust the stored winner is the dealer, and every
   * later hit leaves it so.
   */
  lemma BustStaysWithDealer(stored: Winner, playerCards: seq<Card>, c: Card, dealerValue: int)
    requires HandValue(playerCards) > 21
    ensures AfterHit(stored, HandValue(playerCards + [c]), dealerValue) == Dealer
  {
    BustIsPermanent(playerCards, c);
  }

  /**
   * The table as reported during play: the stored winner if there is
   * one; otherwise whoever holds 21, flagged as a Blackjack reveal.
   */
  function Snapshot(playerCards: seq<Card>, dealerCards: seq<Card>, stored: Winner): (t: TableState)
    ensures t.playerCards == playerCards && t.dealerCards == dealerCards
    ensures t.blackjack <==> stored == Nobody && (HandValue(playerCards) == 21 || HandValue(dealerCards) == 21)
    ensures stored != Nobody ==> t.winner == stored
    ensures stored == Nobody ==> t.winner == Blackjack(HandValue(playerCards), HandValue(dealerCards))
  {
    if stored != Nobody then
      TableState(playerCards, dealerCards, stored, false)
    else
      var w := Blackjack(HandValue(playerCards), HandValue(dealerCards));
      TableState(playerCards, dealerCards, w, w != Nobody)
  }

  /**
   * Cards spread over the deck and the two hands that together make up
   * one fresh deck: 52 of them, none in two places and none twice.
   */
  ghost predicate Conserved(deck: seq<Card>, player: seq<Card>, dealer: seq<Card>)
  {
    multiset(deck) + multiset(player) + multiset(dealer) == multiset(FullDeck())
  }

  /** On a conserved table every card lies in exactly one place, once. */
  lemma ConservedPlaces(deck: seq<Card>, player: seq<Card>, dealer: seq<Card>, c: Card)
    requires Conserved(deck, player, dealer)
    ensures |deck| + |player| + |dealer| == 52
    ensures multiset(deck)[c] + multiset(player)[c] + multiset(dealer)[c] == 1
    ensures c in player ==> c !in deck && c !in dealer
    ensures c in dealer ==> c !in deck && c !in player
  {
    FullDeckMultiplicity(c);
    assert |multiset(deck) + multiset(player) + multiset(dealer)| == |multiset(FullDeck())|;
  }

  /** Dealing the first four cards of `s` to the two hands keeps every card. */
  lemma OpeningDealConserves(s: seq<Card>)
    requires |s| >= 4
    ensures multiset(s) == multiset(s[4..]) + multiset([s[0], s[2]]) + multiset([s[1], s[3]])
  {
    assert s == [s[0], s[1], s[2], s[3]] + s[4..];
  }

  /**
   * The opening deal: two rounds of one card to the player, then one to
   * the dealer, from the front of the deck.
   */
  method DealOpeningHands(d: Deck, p: Hand, q: Hand)
    requires |d.cards| > 4 && p.cards == [] && q.cards == [] && p != q
    modifies d, p`cards, q`cards
    ensures p.cards == [old(d.cards)[0], old(d.cards)[2]]
    ensures q.cards == [old(d.cards)[1], old(d.cards)[3]]
    ensures d.cards == old(d.cards)[4..]
  {
    ghost var s := d.cards;
    for i := 0 to 2
      invariant d.cards == s[2 * i..]
      invariant |p.cards| == i && |q.cards| == i
      invariant forall k :: 0 <= k < i ==> p.cards[k] == s[2 * k] && q.cards[k] == s[2 * k + 1]
    {
      var c := d.Deal();
      assert c == Some(s[2 * i]) && d.cards == s[2 * i + 1..];
      p.AddCard(c.value);
      c := d.Deal();
      assert c == Some(s[2 * i + 1]) && d.cards == s[2 * i + 2..];
      q.AddCard(c.value);
    }
    assert p.cards == [s[0], s[2]] && q.cards == [s[1], s[3]];
  }

  /** Moving the front card of the deck to the player keeps every card. */
  lemma MoveFrontCardConserves(deck: seq<Card>, player: seq<Card>, dealer: seq<Card>)
    requires Conserved(deck, player, dealer) && |deck| > 0
    ensures Conserved(deck[1..], player + [deck[0]], dealer)
  {
    assert deck == [deck[0]] + deck[1..];
  }

  class GameState {
    const deck: Deck
    const playerHand: Hand
    const dealerHand: Hand
    /** The winner stored by `Hit`, `Nobody` until then. */
    var hasWinner: Winner

    /**
     * The round's invariant: one player hand and one dealer hand, the
     * dealer's two cards, at least two cards for the player, every card
     * of the fresh deck in exactly one place, and never a stored push.
     */
    ghost predicate Valid()
      reads this, deck, playerHand, dealerHand
    {
      !playerHand.dealer && dealerHand.dealer &&
      |dealerHand.cards| == 2 && |playerHand.cards| >= 2 &&
      Conserved(deck.cards, playerHand.cards, dealerHand.cards) &&
      hasWinner != Push
    }

    /**
     * Builds and shuffles a deck, then deals player, dealer, player,
     * dealer from its front. `roll` stands for the shuffle's random draws.
     */
    constructor (roll: nat -> nat)
      ensures Valid()
      ensures fresh(deck) && fresh(playerHand) && fresh(dealerHand)
      ensures var s := Shuffled(FullDeck(), roll);
        |s| == 52 &&
        playerHand.cards == [s[0], s[2]] &&
        dealerHand.cards == [s[1], s[3]] &&
        deck.cards == s[4..]
      ensures |deck.cards| == 48
      ensures playerHand.value == 0 && dealerHand.value == 0
      ensures hasWinner == Nobody
    {
      var d := new Deck();
      d.Shuffle(roll);
      ShuffledPermutation(FullDeck(), roll);
      var p := new Hand(false);
      var q := new Hand(true);
      ghost var s := d.cards;
      DealOpeningHands(d, p, q);
      OpeningDealConserves(s);
      deck := d;
      playerHand := p;
      dealerHand := q;
      hasWinner := Nobody;
    }

    /** Whether the player's score is over 21. */
    method PlayerIsOver() returns (over: bool)
      modifies playerHand`value
      ensures over <==> HandValue(playerHand.cards) > 21
      ensures playerHand.value == HandValue(playerHand.cards)
    {
      var v := playerHand.GetValue();
      over := v > 21;
    }

    /** Who holds 21 right now; stores nothing. */
    method SomeoneHasBlackjack() returns (w: Winner)
      modifies playerHand`value, dealerHand`value
      ensures w == Blackjack(HandValue(playerHand.cards), HandValue(dealerHand.cards))
      ensures playerHand.value == HandValue(playerHand.cards)
      ensures dealerHand.value == HandValue(dealerHand.cards)
    {
      var pv := playerHand.GetValue();
      var dv := dealerHand.GetValue();
      w := Blackjack(pv, dv);
    }

    /**
     * Deals the front card of the deck to the player and updates the
     * stored winner. When the deck has one card or none, no card is dealt
     * and nothing changes.
     */
    method Hit() returns (r: HitOutcome)
      requires Valid()
      modifies deck, playerHand, dealerHand`value, this`hasWinner
      ensures Valid()
      ensures dealerHand.cards == old(dealerHand.cards)
      ensures |old(deck.cards)| > 1 ==>
        playerHand.cards == old(playerHand.cards) + [old(deck.cards)[0]] &&
        deck.cards == old(deck.cards)[1..] &&
        hasWinner == AfterHit(old(hasWinner), HandValue(playerHand.cards), HandValue(dealerHand.cards)) &&
        r == Played(hasWinner) &&
        playerHand.value == HandValue(playerHand.cards) &&
        dealerHand.value == HandValue(dealerHand.cards)
      ensures |old(deck.cards)| <= 1 ==>
        r == NoCardLeft &&
        deck.cards == old(deck.cards) && playerHand.cards == old(playerHand.cards) &&
        hasWinner == old(hasWinner) &&
        playerHand.value == old(playerHand.value) && dealerHand.value == old(dealerHand.value)
    {
      var c := deck.Deal();
      match c
      case None =>
        r := NoCardLeft;
      case Some(card) =>
        MoveFrontCardConserves(old(deck.cards), playerHand.cards, dealerHand.cards);
        playerHand.AddCard(card);
        var bj := SomeoneHasBlackjack();
        if bj == Player {
          hasWinner := Player;
        }
        var over := PlayerIsOver();
        if over {
          hasWinner := Dealer;
        }
        r := Played(hasWinner);
    }

    /**
     * The table as reported during play. The scores are recomputed only
     * when no winner is stored; nothing else changes.
     */
    method GetTableState() returns (t: TableState)
      modifies playerHand`value, dealerHand`value
      ensures t == Snapshot(playerHand.cards, dealerHand.cards, hasWinner)
      ensures hasWinner != Nobody ==>
        playerHand.value == old(playerHand.value) && dealerHand.value == old(dealerHand.value)
      ensures hasWinner == Nobody ==>
        playerHand.value == HandValue(playerHand.cards) && dealerHand.value == HandValue(dealerHand.cards)
    {
      var blackjack := false;
      var winner := hasWinner;
      if winner == Nobody {
        winner := SomeoneHasBlackjack();
        if winner != Nobody {
          blackjack := true;
        }
      }
      t := TableState(playerHand.cards, dealerHand.cards, winner, blackjack);
    }

    /** The stand comparison; the result is reported, not stored. */
    method CalculateFinalState() returns (f: FinalState)
      modifies playerHand`value, dealerHand`value
      ensures f.playerCards == playerHand.cards && f.dealerCards == dealerHand.cards
      ensures f.winner == Outcome(HandValue(playerHand.cards), HandValue(dealerHand.cards))
      ensures playerHand.value == HandValue(playerHand.cards)
      ensures dealerHand.value == HandValue(dealerHand.cards)
    {
      var playerValue := playerHand.GetValue();
      var dealerValue := dealerHand.GetValue();
      var winner;
      if playerValue == dealerValue {
        winner := Push;
      } else if playerValue > dealerValue {
        winner := Player;
      } else {
        winner := Dealer;
      }
      f := FinalState(playerHand.cards, dealerHand.cards, winner);
    }
  }
}
