/**
 * A hand: the cards one party holds, in the order they were dealt, and
 * its score. The score is recomputed from the whole card list on every
 * read: every Ace first counts 11, and a single 10 is taken off when the
 * hand holds an Ace and the total is over 21, however many Aces it holds.
 */
module Hands {
  import opened Cards

  /** Sum of the card points with every Ace at 11, accumulated left to right. */
  function RawTotal(cards: seq<Card>): (t: int)
    ensures 2 * |cards| <= t <= 11 * |cards|
  {
    if cards == [] then 0 else RawTotal(cards[..|cards| - 1]) + Points(cards[|cards| - 1].rank)
  }

  /** Whether some card of the hand is an Ace: the `has_ace` flag after a full pass. */
  predicate HasAce(cards: seq<Card>): (b: bool)
    ensures cards == [] ==> !b
  {
    exists i | 0 <= i < |cards| :: cards[i].rank == Ace
  }

  /** The flag is set exactly when an Ace is among the cards. */
  lemma AceFlag(cards: seq<Card>)
    ensures HasAce(cards) <==> exists c :: c in cards && c.rank == Ace
  {
    if c :| c in cards && c.rank == Ace {
      var i :| 0 <= i < |cards| && cards[i] == c;
    }
  }

  /** The score of a hand. */
  function HandValue(cards: seq<Card>): (v: int)
    ensures RawTotal(cards) - 10 <= v <= RawTotal(cards)
    ensures v != RawTotal(cards) <==> HasAce(cards) && RawTotal(cards) > 21
  {
    if HasAce(cards) && RawTotal(cards) > 21 then RawTotal(cards) - 10 else RawTotal(cards)
  }

  /** Adding a card adds its points to the raw total, and an Ace to the hand. */
  lemma RawTotalAppend(cards: seq<Card>, c: Card)
    ensures RawTotal(cards + [c]) == RawTotal(cards) + Points(c.rank)
    ensures HasAce(cards + [c]) <==> HasAce(cards) || c.rank == Ace
  {
    var s := cards + [c];
    assert s[..|s| - 1] == cards;
    if HasAce(cards) {
      var i :| 0 <= i < |cards| && cards[i].rank == Ace;
      assert s[i] == cards[i];
    }
    if HasAce(s) && c.rank != Ace {
      var i :| 0 <= i < |s| && s[i].rank == Ace;
      assert i < |cards| && cards[i] == s[i];
    }
  }

  /** A hand over 21 stays over 21 whatever card is added to it. */
  lemma BustIsPermanent(cards: seq<Card>, c: Card)
    requires HandValue(cards) > 21
    ensures HandValue(cards + [c]) > 21
  {
    RawTotalAppend(cards, c);
  }

  /** Two cards score 21 exactly when one is an Ace and the other is worth ten. */
  lemma NaturalBlackjack(a: Card, b: Card)
    ensures HandValue([a, b]) == 21 <==>
      (a.rank == Ace && Points(b.rank) == 10) || (b.rank == Ace && Points(a.rank) == 10)
  {
    RawTotalAppend([], a);
    RawTotalAppend([a], b);
    assert [a] + [b] == [a, b];
  }

  /** Two Aces: the correction is taken once, not once per Ace. */
  lemma TwoAcesExamples(s: Suit)
    ensures HandValue([Card(s, Ace), Card(s, Ace), Card(s, Pip(9))]) == 21
    ensures HandValue([Card(s, Ace), Card(s, Ace)]) == 12
  {
    var a, nine := Card(s, Ace), Card(s, Pip(9));
    RawTotalAppend([], a);
    RawTotalAppend([a], a);
    assert [a] + [a] == [a, a];
    RawTotalAppend([a, a], nine);
    assert [a, a] + [nine] == [a, a, nine];
  }

  /** One Ace and three Kings: after the single correction the hand is still bust. */
  lemma BustAfterCorrectionExample(s: Suit)
    ensures HandValue([Card(s, Ace), Card(s, King), Card(s, King), Card(s, King)]) == 31
  {
    var a, k := Card(s, Ace), Card(s, King);
    var h1, h2, h3 := [a], [a, k], [a, k, k];
    RawTotalAppend([], a);
    RawTotalAppend(h1, k);
    assert h1 + [k] == h2;
    RawTotalAppend(h2, k);
    assert h2 + [k] == h3;
    RawTotalAppend(h3, k);
    assert h3 + [k] == [a, k, k, k];
  }

  /** Two-card hands score as in standard Blackjack. */
  lemma TwoCardExamples(s: Suit)
    ensures HandValue([Card(s, Pip(2)), Card(s, Pip(9))]) == 11
    ensures HandValue([Card(s, Ace), Card(s, Pip(9))]) == 20
    ensures HandValue([Card(s, King), Card(s, Queen)]) == 20
    ensures HandValue([Card(s, Ace), Card(s, King)]) == 21
  {
    var a, k := Card(s, Ace), Card(s, King);
    RawTotalAppend([], a);
    RawTotalAppend([], k);
    RawTotalAppend([], Card(s, Pip(2)));
    RawTotalAppend([Card(s, Pip(2))], Card(s, Pip(9)));
    assert [Card(s, Pip(2))] + [Card(s, Pip(9))] == [Card(s, Pip(2)), Card(s, Pip(9))];
    RawTotalAppend([a], Card(s, Pip(9)));
    assert [a] + [Card(s, Pip(9))] == [a, Card(s, Pip(9))];
    RawTotalAppend([k], Card(s, Queen));
    assert [k] + [Card(s, Queen)] == [k, Card(s, Queen)];
    RawTotalAppend([a], k);
    assert [a] + [k] == [a, k];
  }

  /** A hand of 10, 5 and 7 is bust. */
  lemma BustExample(s: Suit)
    ensures HandValue([Card(s, Pip(10)), Card(s, Pip(5)), Card(s, Pip(7))]) == 22
  {
    var ten, five, seven := Card(s, Pip(10)), Card(s, Pip(5)), Card(s, Pip(7));
    RawTotalAppend([], ten);
    RawTotalAppend([ten], five);
    assert [ten] + [five] == [ten, five];
    RawTotalAppend([ten, five], seven);
    assert [ten, five] + [seven] == [ten, five, seven];
  }

  class Hand {
    /** Whether this is the dealer's hand; it does not affect the score. */
    const dealer: bool
    /** The cards in the order they were dealt. */
    var cards: seq<Card>
    /** The score as last computed by `CalculateValue`. */
    var value: int

    constructor (dealer: bool)
      ensures this.dealer == dealer && cards == [] && value == 0
    {
      this.dealer := dealer;
      cards := [];
      value := 0;
    }

    /** Appends a card; the earlier cards keep their places. */
    method AddCard(card: Card)
      modifies this`cards
      ensures cards == old(cards) + [card]
    {
      cards := cards + [card];
    }

    /** Recomputes `value` from the whole card list. */
    method CalculateValue()
      modifies this`value
      ensures value == HandValue(cards)
    {
      value := 0;
      var hasAce := false;
      for i := 0 to |cards|
        invariant value == RawTotal(cards[..i])
        invariant hasAce == HasAce(cards[..i])
      {
        var card := cards[i];
        if card.rank.Pip? {
          value := value + card.rank.n;
        } else if card.rank == Ace {
          hasAce := true;
          value := value + 11;
        } else {
          value := value + 10;
        }
        assert cards[..i + 1] == cards[..i] + [card];
        RawTotalAppend(cards[..i], card);
      }
      assert cards[..|cards|] == cards;
      if hasAce && value > 21 {
        value := value - 10;
      }
    }

    /** Recomputes the score and returns it. */
    method GetValue() returns (v: int)
      modifies this`value
      ensures v == value == HandValue(cards)
    {
      CalculateValue();
      v := value;
    }
  }
}
