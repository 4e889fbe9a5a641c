/**
 * Playing cards: a card is nothing but its suit and its rank.
 * The order of `Suits` and `Ranks` is the order in which a fresh deck is built.
 */
module Cards {

  datatype Suit = Spades | Clubs | Hearts | Diamonds

  /** The numeric ranks "2" .. "10", which count at face value. */
  type PipValue = n: int | 2 <= n <= 10 witness 2

  datatype Rank = Ace | Pip(n: PipValue) | Jack | Queen | King

  datatype Card = Card(suit: Suit, rank: Rank)

  /** Suits in construction order. */
  const Suits: seq<Suit> := [Spades, Clubs, Hearts, Diamonds]

  /** Ranks in construction order: A, 2, 3, ..., 10, J, Q, K. */
  const Ranks: seq<Rank> := [Ace, Pip(2), Pip(3), Pip(4), Pip(5), Pip(6), Pip(7), Pip(8), Pip(9), Pip(10), Jack, Queen, King]

  /** Position of a suit in `Suits`. */
  function SuitIndex(s: Suit): (k: nat)
    ensures k < |Suits| && Suits[k] == s
  {
    match s
    case Spades => 0
    case Clubs => 1
    case Hearts => 2
    case Diamonds => 3
  }

  /** Position of a rank in `Ranks`. */
  function RankIndex(r: Rank): (k: nat)
    ensures k < |Ranks| && Ranks[k] == r
  {
    match r
    case Ace => 0
    case Pip(n) => n - 1
    case Jack => 10
    case Queen => 11
    case King => 12
  }

  /** No suit is listed twice. */
  lemma SuitIndexOfSuit(k: nat)
    requires k < |Suits|
    ensures SuitIndex(Suits[k]) == k
  {
  }

  /** No rank is listed twice. */
  lemma RankIndexOfRank(k: nat)
    requires k < |Ranks|
    ensures RankIndex(Ranks[k]) == k
  {
    if 1 <= k <= 9 {
      assert Ranks[k] == Pip(k + 1);
    }
  }

  /**
   * Points a single card contributes to the raw total: numeric ranks
   * at face value, J, Q and K ten, and an Ace eleven.
   */
  function Points(r: Rank): (p: int)
    ensures 2 <= p <= 11
    ensures p == 11 <==> r == Ace
    ensures p == 10 <==> r == Pip(10) || r == Jack || r == Queen || r == King
    ensures r.Pip? ==> p == r.n
  {
    match r
    case Pip(n) => n
    case Ace => 11
    case _ => 10
  }
}
