/**
 * The deck: 52 cards built suit by suit, shuffled in place and dealt
 * from the front. Both shuffling and dealing act only while more than
 * one card remains.
 */
module Decks {
  import opened Cards

  datatype Option<T> = None | Some(value: T)

  /** The 52 cards as the deck is built: suit-major, rank-minor. */
  function FullDeck(): (deck: seq<Card>)
    ensures |deck| == |Suits| * |Ranks| == 52
  {
    seq(52, i requires 0 <= i < 52 => Card(Suits[i / 13], Ranks[i % 13]))
  }

  /** Card number `13 * s + r` has the `s`-th suit and the `r`-th rank. */
  lemma FullDeckLayout(s: nat, r: nat)
    requires s < |Suits| && r < |Ranks|
    ensures 13 * s + r < |FullDeck()|
    ensures FullDeck()[13 * s + r] == Card(Suits[s], Ranks[r])
  {
    var i := 13 * s + r;
    assert i / 13 == s && i % 13 == r;
  }

  /** Every card of the game is in a fresh deck. */
  lemma FullDeckComplete(c: Card)
    ensures c in FullDeck()
  {
    var s, r := SuitIndex(c.suit), RankIndex(c.rank);
    FullDeckLayout(s, r);
  }

  /** A fresh deck holds no card twice. */
  lemma FullDeckDistinct(i: nat, j: nat)
    requires i < j < |FullDeck()|
    ensures FullDeck()[i] != FullDeck()[j]
  {
    SuitIndexOfSuit(i / 13);
    SuitIndexOfSuit(j / 13);
    RankIndexOfRank(i % 13);
    RankIndexOfRank(j % 13);
    assert i / 13 != j / 13 || i % 13 != j % 13;
  }

  /** Distinct members of a sequence each occur in it exactly once. */
  lemma {:induction false} DistinctMultiplicity(s: seq<Card>, c: Card)
    requires forall i, j :: 0 <= i < j < |s| ==> s[i] != s[j]
    ensures multiset(s)[c] == if c in s then 1 else 0
  {
    if s != [] {
      var t := s[1..];
      assert s == [s[0]] + t;
      forall i, j | 0 <= i < j < |t| ensures t[i] != t[j] {
        assert t[i] == s[i + 1] && t[j] == s[j + 1];
      }
      DistinctMultiplicity(t, c);
      if c == s[0] {
        forall k | 0 <= k < |t| ensures t[k] != c {
          assert t[k] == s[k + 1];
        }
      }
    }
  }

  /** As a multiset, a fresh deck is exactly one copy of every card. */
  lemma FullDeckMultiplicity(c: Card)
    ensures multiset(FullDeck())[c] == 1
  {
    forall i, j | 0 <= i < j < |FullDeck()| ensures FullDeck()[i] != FullDeck()[j] {
      FullDeckDistinct(i, j);
    }
    FullDeckComplete(c);
    DistinctMultiplicity(FullDeck(), c);
  }

  /** `s` with the cards at positions `i` and `j` exchanged. */
  function Swap<T>(s: seq<T>, i: nat, j: nat): (t: seq<T>)
    requires i < |s| && j < |s|
    ensures |t| == |s|
  {
    s[i := s[j]][j := s[i]]
  }

  /** Exchanging two cards keeps the same cards. */
  lemma SwapPermutation<T>(s: seq<T>, i: nat, j: nat)
    requires i < |s| && j < |s|
    ensures multiset(Swap(s, i, j)) == multiset(s)
  {
  }

  /** The position drawn for position `i`: one of 0 .. `i`. */
  function Draw(roll: nat -> nat, i: nat): (j: nat)
    ensures j <= i
  {
    roll(i) % (i + 1)
  }

  /**
   * The swap passes of the library shuffle for positions `i` down to 1:
   * position `i` is exchanged with a position drawn from 0 .. `i`.
   * `roll(i)` stands for the random draw made at position `i`.
   */
  function SwapPasses<T>(s: seq<T>, i: nat, roll: nat -> nat): (r: seq<T>)
    requires i < |s|
    ensures |r| == |s|
    decreases i
  {
    if i == 0 then s else SwapPasses(Swap(s, i, Draw(roll, i)), i - 1, roll)
  }

  /** The swap passes rearrange the cards and drop or add none. */
  lemma {:induction false} SwapPassesPermutation<T>(s: seq<T>, i: nat, roll: nat -> nat)
    requires i < |s|
    ensures multiset(SwapPasses(s, i, roll)) == multiset(s)
    decreases i
  {
    if i > 0 {
      var j := Draw(roll, i);
      SwapPermutation(s, i, j);
      SwapPassesPermutation(Swap(s, i, j), i - 1, roll);
    }
  }

  /** The order `shuffle` leaves behind for the random draws `roll`. */
  function Shuffled(s: seq<Card>, roll: nat -> nat): (r: seq<Card>)
    ensures |r| == |s|
    ensures |s| <= 1 ==> r == s
  {
    if |s| > 1 then SwapPasses(s, |s| - 1, roll) else s
  }

  /** Shuffling is a permutation, and leaves a deck of 0 or 1 cards as it was. */
  lemma ShuffledPermutation(s: seq<Card>, roll: nat -> nat)
    ensures |Shuffled(s, roll)| == |s|
    ensures multiset(Shuffled(s, roll)) == multiset(s)
    ensures |s| <= 1 ==> Shuffled(s, roll) == s
  {
    if |s| > 1 {
      SwapPassesPermutation(s, |s| - 1, roll);
    }
  }

  class Deck {
    /** The cards still in the deck, front first. */
    var cards: seq<Card>

    constructor ()
      ensures cards == FullDeck()
    {
      cards := FullDeck();
    }

    /** Reorders the deck in place when it holds more than one card. */
    method Shuffle(roll: nat -> nat)
      modifies this
      ensures cards == Shuffled(old(cards), roll)
      ensures |cards| == |old(cards)| && multiset(cards) == multiset(old(cards))
      ensures |old(cards)| <= 1 ==> cards == old(cards)
    {
      ShuffledPermutation(cards, roll);
      if |cards| > 1 {
        cards := Shuffled(cards, roll);
      }
    }

    /**
     * Removes and returns the front card when more than one card remains;
     * otherwise returns nothing and leaves the deck alone.
     */
    method Deal() returns (c: Option<Card>)
      modifies this
      ensures |old(cards)| > 1 ==> c == Some(old(cards)[0]) && cards == old(cards)[1..]
      ensures |old(cards)| <= 1 ==> c == None && cards == old(cards)
    {
      if |cards| > 1 {
        c := Some(cards[0]);
        cards := cards[1..];
      } else {
        c := None;
      }
    }
  }
}
