/**
 * The unshuffled 52-card stack of the blackjack example
 * (chompie/examples/blackjack_chomped/src/deck.rs): built suit by suit,
 * rank by rank, and drawn from the top (the end of the list).
 */
module Decks {
  import opened Wrappers
  import opened PlayingCards

  const Suits: seq<Suit> := [Hearts, Diamonds, Clubs, Spades]
  const Ranks: seq<Rank> := [Two, Three, Four, Five, Six, Seven, Eight, Nine, Ten, Jack, Queen, King, Ace]

  function SuitIndex(s: Suit): (i: nat)
    ensures i < 4 && Suits[i] == s
  {
    match s
    case Hearts => 0
    case Diamonds => 1
    case Clubs => 2
    case Spades => 3
  }

  function RankIndex(r: Rank): (i: nat)
    ensures i < 13 && Ranks[i] == r
  {
    match r
    case Two => 0
    case Three => 1
    case Four => 2
    case Five => 3
    case Six => 4
    case Seven => 5
    case Eight => 6
    case Nine => 7
    case Ten => 8
    case Jack => 9
    case Queen => 10
    case King => 11
    case Ace => 12
  }

  /** The first n cards of a new deck, in the order they are built. */
  function DeckPrefix(n: nat): (d: seq<Card>)
    requires n <= 52
    ensures |d| == n
  {
    seq(n, i requires 0 <= i < n => Card(Suits[i / 13], Ranks[i % 13]))
  }

  function FullDeck(): (d: seq<Card>)
    ensures |d| == 52
  {
    DeckPrefix(52)
  }

  /** Building one more card of suit s and rank r extends the prefix by that card. */
  lemma PrefixStep(s: nat, r: nat)
    requires s < 4 && r < 13
    ensures DeckPrefix(13 * s + r + 1) == DeckPrefix(13 * s + r) + [Card(Suits[s], Ranks[r])]
  {
    var n := 13 * s + r;
    assert n / 13 == s && n % 13 == r;
    assert DeckPrefix(n + 1)[n] == Card(Suits[s], Ranks[r]);
  }

  /** Position 13 s + r holds the r-th rank of the s-th suit, and each card sits at its own position. */
  lemma DeckIndex(s: nat, r: nat)
    requires s < 4 && r < 13
    ensures FullDeck()[13 * s + r] == Card(Suits[s], Ranks[r])
    ensures FullDeck()[13 * s + r] == FullDeck()[13 * SuitIndex(Suits[s]) + RankIndex(Ranks[r])]
  {
    var i := 13 * s + r;
    assert i / 13 == s && i % 13 == r;
  }

  /** Every card occurs in a new deck exactly once. */
  lemma DeckComplete(c: Card)
    ensures c in FullDeck() && multiset(FullDeck())[c] == 1
  {
    var i := 13 * SuitIndex(c.suit) + RankIndex(c.rank);
    DeckIndex(SuitIndex(c.suit), RankIndex(c.rank));
    DeckDistinct();
    assert FullDeck()[i] == c;
    DistinctCount(FullDeck(), i);
  }

  lemma DeckDistinct()
    ensures forall i, j | 0 <= i < j < 52 :: FullDeck()[i] != FullDeck()[j]
  {
    assert forall a, b | 0 <= a < b < 4 :: Suits[a] != Suits[b];
    assert forall a, b | 0 <= a < b < 13 :: Ranks[a] != Ranks[b];
    forall i, j | 0 <= i < j < 52 ensures FullDeck()[i] != FullDeck()[j] {
      var ci, cj := FullDeck()[i], FullDeck()[j];
      assert SuitIndex(ci.suit) == i / 13 && RankIndex(ci.rank) == i % 13;
      assert SuitIndex(cj.suit) == j / 13 && RankIndex(cj.rank) == j % 13;
      assert i == 13 * (i / 13) + i % 13 && j == 13 * (j / 13) + j % 13;
    }
  }

  /** In a list without repeats, the card at position i occurs once. */
  lemma {:induction false} DistinctCount(d: seq<Card>, i: nat)
    requires i < |d| && forall a, b | 0 <= a < b < |d| :: d[a] != d[b]
    ensures multiset(d)[d[i]] == 1
  {
    var init := d[..|d| - 1];
    assert d == init + [d[|d| - 1]];
    if i == |d| - 1 {
      assert d[i] !in init;
    } else {
      DistinctCount(init, i);
      assert init[i] == d[i];
    }
  }

  class Deck {
    /** The cards, the top of the stack last. */
    var cards: seq<Card>

    /** Pushes every rank of every suit, suits in the order Hearts, Diamonds, Clubs, Spades. */
    constructor ()
      ensures cards == FullDeck()
    {
      var built := [];
      for s := 0 to 4
        invariant built == DeckPrefix(13 * s)
      {
        for r := 0 to 13
          invariant built == DeckPrefix(13 * s + r)
        {
          PrefixStep(s, r);
          built := built + [Card(Suits[s], Ranks[r])];
        }
      }
      cards := built;
    }

    /** Takes the top card; an empty deck gives nothing and stays empty. */
    method Draw() returns (c: Option<Card>)
      modifies this
      ensures old(cards) == [] ==> c == None && cards == []
      ensures old(cards) != [] ==> c == Some(old(cards)[|old(cards)| - 1]) && cards + [c.value] == old(cards)
    {
      if cards == [] {
        return None;
      }
      c := Some(cards[|cards| - 1]);
      cards := cards[..|cards| - 1];
    }

    function Len(): nat
      reads this
    {
      |cards|
    }

    predicate IsEmpty()
      reads this
    {
      cards == []
    }
  }

  /**
   * A new deck holds 52 cards, the first draw is the ace of spades and
   * leaves 51, and after 52 draws the deck is empty and the next draw
   * gives nothing.
   */
  method DrawDown() returns (size: nat, first: Option<Card>, afterFirst: nat, emptied: bool, extra: Option<Card>)
    ensures size == 52 && first == Some(Card(Spades, Ace)) && afterFirst == 51
    ensures emptied && extra == None
  {
    var deck := new Deck();
    size := deck.Len();
    first := deck.Draw();
    afterFirst := deck.Len();
    var i := 1;
    while i < 52
      invariant 1 <= i <= 52 && |deck.cards| == 52 - i
    {
      var _ := deck.Draw();
      i := i + 1;
    }
    emptied := deck.IsEmpty();
    extra := deck.Draw();
  }
}
