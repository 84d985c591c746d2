/**
 * A blackjack hand (chompie/examples/blackjack_chomped/src/hand.rs):
 * its value counts every ace as 11, then demotes aces to 1 one at a time
 * while the total is over 21.
 */
module Hands {
  import opened PlayingCards

  /** The sum of the card values, every ace counted as 11. */
  function RawSum(cards: seq<Card>): nat
  {
    if cards == [] then 0 else RawSum(cards[..|cards| - 1]) + Value(cards[|cards| - 1])
  }

  function AceCount(cards: seq<Card>): (n: nat)
    ensures n <= |cards|
  {
    if cards == [] then 0
    else AceCount(cards[..|cards| - 1]) + (if cards[|cards| - 1].rank == Ace then 1 else 0)
  }

  /** Each card is worth at least 2, each ace 11, and no card more than 11. */
  lemma {:induction false} RawSumBounds(cards: seq<Card>)
    ensures 2 * |cards| + 9 * AceCount(cards) <= RawSum(cards) <= 10 * |cards| + AceCount(cards)
  {
    if cards != [] {
      RawSumBounds(cards[..|cards| - 1]);
    }
  }

  /**
   * How many aces are demoted from 11 to 1: one at a time while the total
   * is over 21 and an ace is left, so at most `aces`, and either the total
   * ends at 21 or less or every ace is demoted.
   */
  function Demotions(total: int, aces: nat): (k: nat)
    ensures k <= aces
    ensures total - 10 * k <= 21 || k == aces
  {
    if total > 21 && aces > 0 then 1 + Demotions(total - 10, aces - 1) else 0
  }

  /** Demoting fewer aces than the function does leaves the total over 21. */
  lemma {:induction false} DemotionsFewest(total: int, aces: nat, j: nat)
    requires j < Demotions(total, aces)
    ensures total - 10 * j > 21
  {
    if j > 0 {
      DemotionsFewest(total - 10, aces - 1, j - 1);
    }
  }

  /** The value of a hand: the raw sum less 10 for each demoted ace. */
  function HandValue(cards: seq<Card>): (v: nat)
    ensures v <= RawSum(cards)
    ensures RawSum(cards) <= 21 ==> v == RawSum(cards)
  {
    RawSumBounds(cards);
    RawSum(cards) - 10 * Demotions(RawSum(cards), AceCount(cards))
  }

  /** The total with j aces counted as 1. */
  function Demoted(cards: seq<Card>, j: nat): int
  {
    RawSum(cards) - 10 * j
  }

  /**
   * The value is the best total the aces allow: the largest one not over
   * 21 when there is one, and otherwise the smallest, with every ace at 1.
   */
  lemma BestTotal(cards: seq<Card>)
    ensures forall j: nat | j <= AceCount(cards) ::
      (HandValue(cards) <= 21 && Demoted(cards, j) <= 21 ==> Demoted(cards, j) <= HandValue(cards)) &&
      (HandValue(cards) > 21 ==> Demoted(cards, j) > 21)
    ensures HandValue(cards) > 21 ==> HandValue(cards) == Demoted(cards, AceCount(cards))
  {
    var raw, aces := RawSum(cards), AceCount(cards);
    var k := Demotions(raw, aces);
    assert HandValue(cards) == Demoted(cards, k);
    forall j: nat | j <= aces
      ensures HandValue(cards) <= 21 && Demoted(cards, j) <= 21 ==> Demoted(cards, j) <= HandValue(cards)
      ensures HandValue(cards) > 21 ==> Demoted(cards, j) > 21
    {
      if j < k {
        DemotionsFewest(raw, aces, j);
      }
    }
  }

  /**
   * A hand is over 21 exactly when it is over 21 with every ace counted as
   * 1, and two cards never are.
   */
  lemma BustAllAcesLow(cards: seq<Card>)
    ensures HandValue(cards) > 21 <==> Demoted(cards, AceCount(cards)) > 21
    ensures HandValue(cards) > 21 ==> |cards| >= 3
  {
    BestTotal(cards);
    RawSumBounds(cards);
    var k := Demotions(RawSum(cards), AceCount(cards));
    assert HandValue(cards) == Demoted(cards, k);
  }

  class Hand {
    var cards: seq<Card>

    constructor ()
      ensures cards == []
    {
      cards := [];
    }

    method AddCard(c: Card)
      modifies this
      ensures cards == old(cards) + [c]
    {
      cards := cards + [c];
    }

    /** The value, computed as the source does: one pass summing, then demoting aces. */
    method Value() returns (v: nat)
      ensures v == HandValue(cards)
    {
      var total: nat := 0;
      var aces: nat := 0;
      for i := 0 to |cards|
        invariant total == RawSum(cards[..i]) && aces == AceCount(cards[..i])
      {
        assert cards[..i + 1][..i] == cards[..i];
        total := total + PlayingCards.Value(cards[i]);
        if cards[i].rank == Ace {
          aces := aces + 1;
        }
      }
      assert cards[..|cards|] == cards;
      ghost var raw := total;
      ghost var k := 0;
      while total > 21 && aces > 0
        invariant total == raw - 10 * k && aces + k == AceCount(cards)
        invariant Demotions(raw, AceCount(cards)) == k + Demotions(total, aces)
      {
        total := total - 10;
        aces := aces - 1;
        k := k + 1;
      }
      v := total;
    }

    /** Bust exactly when the total with every ace counted as 1 is over 21, which takes three cards. */
    predicate IsBust()
      reads this
      ensures IsBust() <==> Demoted(cards, AceCount(cards)) > 21
      ensures IsBust() ==> |cards| >= 3
    {
      BustAllAcesLow(cards);
      HandValue(cards) > 21
    }

    /** A blackjack is two cards: an ace and a card worth 10. */
    predicate IsBlackjack()
      reads this
      ensures IsBlackjack() <==> (|cards| == 2 &&
        ((cards[0].rank == Ace && PlayingCards.Value(cards[1]) == 10) ||
         (cards[1].rank == Ace && PlayingCards.Value(cards[0]) == 10)))
    {
      TwoCardsTwentyOne(cards);
      |cards| == 2 && HandValue(cards) == 21
    }

    function Cards(): seq<Card>
      reads this
    {
      cards
    }
  }

  /** Two cards make 21 exactly when one is an ace and the other is worth 10. */
  lemma TwoCardTwentyOne(c: Card, d: Card)
    ensures HandValue([c, d]) == 21 <==>
      (c.rank == Ace && PlayingCards.Value(d) == 10) || (d.rank == Ace && PlayingCards.Value(c) == 10)
  {
    assert [c, d][..1] == [c] && [c][..0] == [];
    assert RawSum([c]) == PlayingCards.Value(c);
    assert RawSum([c, d]) == PlayingCards.Value(c) + PlayingCards.Value(d);
    assert AceCount([c, d]) == (if c.rank == Ace then 1 else 0) + (if d.rank == Ace then 1 else 0);
  }

  /** TwoCardTwentyOne for any sequence of two cards. */
  lemma TwoCardsTwentyOne(cards: seq<Card>)
    ensures |cards| == 2 ==> (HandValue(cards) == 21 <==>
      (cards[0].rank == Ace && Value(cards[1]) == 10) || (cards[1].rank == Ace && Value(cards[0]) == 10))
  {
    if |cards| == 2 {
      assert cards == [cards[0], cards[1]];
      TwoCardTwentyOne(cards[0], cards[1]);
    }
  }

  /** A fresh hand holding cs, dealt in order. */
  method HandOf(cs: seq<Card>) returns (h: Hand)
    ensures fresh(h) && h.cards == cs
  {
    h := new Hand();
    for i := 0 to |cs|
      invariant h.cards == cs[..i]
    {
      h.AddCard(cs[i]);
      assert cs[..i + 1] == cs[..i] + [cs[i]];
    }
    assert cs[..|cs|] == cs;
  }

  lemma {:induction false} ExampleValues()
    ensures HandValue([Card(Hearts, Five), Card(Diamonds, Seven)]) == 12
    ensures HandValue([Card(Hearts, Ace), Card(Diamonds, Nine)]) == 20
    ensures HandValue([Card(Hearts, Ace), Card(Diamonds, Five), Card(Clubs, Seven)]) == 13
    ensures HandValue([Card(Hearts, King), Card(Diamonds, Queen), Card(Clubs, Five)]) == 25
    ensures HandValue([Card(Hearts, Ace), Card(Diamonds, King)]) == 21
    ensures HandValue([Card(Hearts, Seven), Card(Diamonds, Eight), Card(Clubs, Six)]) == 21
  {
    var a := [Card(Hearts, Ace), Card(Diamonds, Five), Card(Clubs, Seven)];
    assert a[..2][..1] == [Card(Hearts, Ace)] && [Card(Hearts, Ace)][..0] == [];
    assert RawSum(a) == 23 && AceCount(a) == 1;
    var b := [Card(Hearts, King), Card(Diamonds, Queen), Card(Clubs, Five)];
    assert b[..2][..1] == [Card(Hearts, King)];
    assert RawSum(b) == 25 && AceCount(b) == 0;
    var c := [Card(Hearts, Seven), Card(Diamonds, Eight), Card(Clubs, Six)];
    assert c[..2][..1] == [Card(Hearts, Seven)];
    assert RawSum(c) == 21;
    assert [Card(Hearts, Five), Card(Diamonds, Seven)][..1] == [Card(Hearts, Five)];
    assert [Card(Hearts, Ace), Card(Diamonds, Nine)][..1] == [Card(Hearts, Ace)];
    assert [Card(Hearts, Ace), Card(Diamonds, King)][..1] == [Card(Hearts, Ace)];
  }

  /** The example hands of hand.rs, built and valued as there. */
  method ExampleHands() returns (simple: nat, withAce: nat, demoted: nat, bust: bool,
                                 blackjack: bool, threeCardValue: nat, threeCardBlackjack: bool)
    ensures simple == 12 && withAce == 20 && demoted == 13 && bust && blackjack
    ensures threeCardValue == 21 && !threeCardBlackjack
  {
    ExampleValues();
    var h := HandOf([Card(Hearts, Five), Card(Diamonds, Seven)]);
    simple := h.Value();
    h := HandOf([Card(Hearts, Ace), Card(Diamonds, Nine)]);
    withAce := h.Value();
    h := HandOf([Card(Hearts, Ace), Card(Diamonds, Five), Card(Clubs, Seven)]);
    demoted := h.Value();
    h := HandOf([Card(Hearts, King), Card(Diamonds, Queen), Card(Clubs, Five)]);
    bust := h.IsBust();
    h := HandOf([Card(Hearts, Ace), Card(Diamonds, King)]);
    blackjack := h.IsBlackjack();
    h := HandOf([Card(Hearts, Seven), Card(Diamonds, Eight), Card(Clubs, Six)]);
    threeCardValue := h.Value();
    threeCardBlackjack := h.IsBlackjack();
  }
}
