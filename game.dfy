/**
 * One round of the blackjack example
 * (chompie/examples/blackjack_chomped/src/game.rs): dealing, the
 * player's hit, the dealer's drawing to 17 and the decision.
 */
module Games {
  import opened Wrappers
  import opened PlayingCards
  import opened Hands
  import opened Decks

  datatype GameResult = PlayerWins | DealerWins | Push

  /**
   * The decision on the two hand values: a bust player loses even to a
   * bust dealer; otherwise a bust dealer loses, and then the higher value
   * wins, equal values being a push.
   */
  function Decide(player: nat, dealer: nat): (r: GameResult)
    ensures r == PlayerWins <==> player <= 21 && (dealer > 21 || player > dealer)
    ensures r == DealerWins <==> player > 21 || (dealer <= 21 && dealer > player)
    ensures r == Push <==> player <= 21 && dealer <= 21 && player == dealer
  {
    if player > 21 then DealerWins
    else if dealer > 21 then PlayerWins
    else if player > dealer then PlayerWins
    else if dealer > player then DealerWins
    else Push
  }

  /** The cards of s, last first: the order in which they come off the top of a deck. */
  function Reversed(s: seq<Card>): (r: seq<Card>)
    ensures |r| == |s|
  {
    if s == [] then [] else [s[|s| - 1]] + Reversed(s[..|s| - 1])
  }

  lemma {:induction false} ReversedCons(x: Card, s: seq<Card>)
    ensures Reversed([x] + s) == Reversed(s) + [x]
    decreases |s|
  {
    if s != [] {
      assert ([x] + s)[..|s|] == [x] + s[..|s| - 1];
      ReversedCons(x, s[..|s| - 1]);
    } else {
      assert ([x] + s)[..0] == [];
    }
  }

  class Game {
    const deck: Deck
    const playerHand: Hand
    const dealerHand: Hand

    /** The two hands are distinct and, with the deck, hold exactly the 52 cards of a new deck. */
    ghost predicate Valid()
      reads this, deck, playerHand, dealerHand
    {
      playerHand != dealerHand &&
      multiset(deck.cards) + multiset(playerHand.cards) + multiset(dealerHand.cards) == multiset(FullDeck())
    }

    /** Deals from a new deck: player, dealer, player, dealer. */
    constructor ()
      ensures Valid() && fresh(deck) && fresh(playerHand) && fresh(dealerHand)
      ensures playerHand.cards == [Card(Spades, Ace), Card(Spades, Queen)]
      ensures dealerHand.cards == [Card(Spades, King), Card(Spades, Jack)]
      ensures deck.cards == FullDeck()[..48]
    {
      var d := new Deck();
      var p := new Hand();
      var q := new Hand();
      DealInitial(d, p, q);
      deck := d;
      playerHand := p;
      dealerHand := q;
    }

    /** The player takes the top card, if there is one. */
    method PlayerHit()
      requires Valid()
      modifies deck, playerHand
      ensures Valid() && dealerHand.cards == old(dealerHand.cards)
      ensures old(deck.cards) == [] ==> deck.cards == [] && playerHand.cards == old(playerHand.cards)
      ensures old(deck.cards) != [] ==>
        deck.cards == old(deck.cards)[..|old(deck.cards)| - 1] &&
        playerHand.cards == old(playerHand.cards) + [old(deck.cards)[|old(deck.cards)| - 1]]
    {
      var c := deck.Draw();
      if c.Some? {
        playerHand.AddCard(c.value);
        MoveCard(old(deck.cards), deck.cards, c.value, dealerHand.cards, old(playerHand.cards), playerHand.cards);
      }
    }

    /**
     * The dealer draws from the top while the hand is worth less than 17
     * and the deck is not empty, stopping at the first hand worth 17 or
     * more.
     */
    method DealerPlay()
      requires Valid()
      modifies deck, dealerHand
      ensures Valid() && playerHand.cards == old(playerHand.cards)
      ensures HandValue(dealerHand.cards) >= 17 || deck.cards == []
      ensures |deck.cards| <= |old(deck.cards)| && deck.cards == old(deck.cards)[..|deck.cards|]
      ensures dealerHand.cards == old(dealerHand.cards) + Reversed(old(deck.cards)[|deck.cards|..])
      ensures forall j | |old(dealerHand.cards)| <= j < |dealerHand.cards| :: HandValue(dealerHand.cards[..j]) < 17
    {
      ghost var deck0, hand0 := deck.cards, dealerHand.cards;
      var v := dealerHand.Value();
      while v < 17
        invariant Valid() && playerHand.cards == old(playerHand.cards)
        invariant v == HandValue(dealerHand.cards)
        invariant |deck.cards| <= |deck0| && deck.cards == deck0[..|deck.cards|]
        invariant dealerHand.cards == hand0 + Reversed(deck0[|deck.cards|..])
        invariant forall j | |hand0| <= j < |dealerHand.cards| :: HandValue(dealerHand.cards[..j]) < 17
        decreases |deck.cards|
      {
        ghost var before := dealerHand.cards;
        var drawn := DealerDraw();
        if !drawn {
          break;
        }
        DealerStep(deck0, deck.cards, dealerHand.cards[|dealerHand.cards| - 1]);
        BelowSeventeenExtends(|hand0|, before, dealerHand.cards);
        v := dealerHand.Value();
      }
    }

    /** One step of the dealer's loop: the top card, if any, goes to the dealer. */
    method DealerDraw() returns (drawn: bool)
      requires Valid()
      modifies deck, dealerHand
      ensures Valid() && playerHand.cards == old(playerHand.cards)
      ensures !drawn ==> old(deck.cards) == [] && deck.cards == [] && dealerHand.cards == old(dealerHand.cards)
      ensures drawn ==> |dealerHand.cards| > 0 && deck.cards + [dealerHand.cards[|dealerHand.cards| - 1]] == old(deck.cards)
      ensures drawn ==> dealerHand.cards == old(dealerHand.cards) + [dealerHand.cards[|dealerHand.cards| - 1]]
    {
      var c := deck.Draw();
      if c.None? {
        return false;
      }
      dealerHand.AddCard(c.value);
      MoveCard(old(deck.cards), deck.cards, c.value, playerHand.cards, old(dealerHand.cards), dealerHand.cards);
      drawn := true;
    }

    /**
     * A bust player loses; otherwise a bust dealer loses; otherwise the
     * higher hand value wins and equal values push.
     */
    function Result(): (r: GameResult)
      reads this, playerHand, dealerHand
      ensures r == DealerWins <==>
        playerHand.IsBust() || (!dealerHand.IsBust() && HandValue(dealerHand.cards) > HandValue(playerHand.cards))
      ensures r == PlayerWins <==>
        !playerHand.IsBust() && (dealerHand.IsBust() || HandValue(playerHand.cards) > HandValue(dealerHand.cards))
      ensures r == Push <==>
        !playerHand.IsBust() && !dealerHand.IsBust() && HandValue(playerHand.cards) == HandValue(dealerHand.cards)
    {
      Decide(HandValue(playerHand.cards), HandValue(dealerHand.cards))
    }
  }

  /** Moving the top card of the deck into one hand keeps the cards in play. */
  lemma MoveCard(deck: seq<Card>, deck': seq<Card>, c: Card, other: seq<Card>, hand: seq<Card>, hand': seq<Card>)
    requires deck' + [c] == deck && hand' == hand + [c]
    ensures multiset(deck') + multiset(other) + multiset(hand') == multiset(deck) + multiset(other) + multiset(hand)
  {
  }

  /** Takes the top card of d into h; a new deck dealt to at most four times never runs out. */
  method DealTop(d: Deck, h: Hand) returns (c: Card)
    requires |d.cards| > 0
    modifies d, h
    ensures h.cards == old(h.cards) + [c] && d.cards + [c] == old(d.cards)
  {
    var top := d.Draw();
    c := top.value;
    h.AddCard(c);
  }

  /** The opening deal from a new deck: player, dealer, player, dealer. */
  method DealInitial(d: Deck, p: Hand, q: Hand)
    requires d.cards == FullDeck() && p.cards == [] && q.cards == [] && p != q
    modifies d, p, q
    ensures p.cards == [Card(Spades, Ace), Card(Spades, Queen)]
    ensures q.cards == [Card(Spades, King), Card(Spades, Jack)]
    ensures d.cards == FullDeck()[..48]
    ensures multiset(d.cards) + multiset(p.cards) + multiset(q.cards) == multiset(FullDeck())
  {
    var c0 := DealTop(d, p);
    var c1 := DealTop(d, q);
    var c2 := DealTop(d, p);
    var c3 := DealTop(d, q);
    assert p.cards == [c0, c2] && q.cards == [c1, c3];
    InitialDeal(d.cards, p.cards, q.cards);
  }

  /** The deal takes cards 51 and 49 to the player and 50 and 48 to the dealer, conserving all 52. */
  lemma InitialDeal(deck: seq<Card>, player: seq<Card>, dealer: seq<Card>)
    requires |player| == 2 && |dealer| == 2
    requires deck + [dealer[1]] + [player[1]] + [dealer[0]] + [player[0]] == FullDeck()
    ensures player == [Card(Spades, Ace), Card(Spades, Queen)]
    ensures dealer == [Card(Spades, King), Card(Spades, Jack)]
    ensures deck == FullDeck()[..48]
    ensures multiset(deck) + multiset(player) + multiset(dealer) == multiset(FullDeck())
  {
    DealtFromTop(deck, player, dealer, FullDeck());
    DeckIndex(3, 12);
    DeckIndex(3, 11);
    DeckIndex(3, 10);
    DeckIndex(3, 9);
  }

  /** Dealing the top four cards alternately: the player gets the 1st and 3rd, the dealer the 2nd and 4th. */
  lemma DealtFromTop(deck: seq<Card>, player: seq<Card>, dealer: seq<Card>, full: seq<Card>)
    requires |player| == 2 && |dealer| == 2 && |full| == 52
    requires deck + [dealer[1]] + [player[1]] + [dealer[0]] + [player[0]] == full
    ensures deck == full[..48] && player == [full[51], full[49]] && dealer == [full[50], full[48]]
    ensures multiset(deck) + multiset(player) + multiset(dealer) == multiset(full)
  {
    var tail := [dealer[1], player[1], dealer[0], player[0]];
    Regroup(deck, dealer[1], player[1], dealer[0], player[0]);
    assert deck == full[..48] && tail == full[48..];
    assert player == [player[0], player[1]] && dealer == [dealer[0], dealer[1]];
    Conserve(deck, tail, player, dealer);
  }

  lemma Regroup(deck: seq<Card>, a: Card, b: Card, c: Card, e: Card)
    ensures deck + [a] + [b] + [c] + [e] == deck + [a, b, c, e]
  {
  }

  /** Splitting the four dealt cards between the two hands loses none. */
  lemma Conserve(deck: seq<Card>, tail: seq<Card>, player: seq<Card>, dealer: seq<Card>)
    requires |tail| == 4 && player == [tail[3], tail[1]] && dealer == [tail[2], tail[0]]
    ensures multiset(deck) + multiset(player) + multiset(dealer) == multiset(deck + tail)
  {
    TailMultiset(tail);
    calc {
      multiset(deck + tail);
      multiset(deck) + multiset(tail);
      multiset(deck) + (multiset(player) + multiset(dealer));
    }
  }

  lemma TailMultiset(tail: seq<Card>)
    requires |tail| == 4
    ensures multiset(tail) == multiset([tail[3], tail[1]]) + multiset([tail[2], tail[0]])
  {
    assert tail == [tail[0], tail[1], tail[2], tail[3]];
  }

  /** Drawing onto a hand worth less than 17 keeps every hand along the way below 17. */
  lemma BelowSeventeenExtends(n: nat, before: seq<Card>, after: seq<Card>)
    requires |after| == |before| + 1 && after[..|before|] == before && HandValue(before) < 17
    requires forall j | n <= j < |before| :: HandValue(before[..j]) < 17
    ensures forall j | n <= j < |after| :: HandValue(after[..j]) < 17
  {
    forall j | n <= j < |after| ensures HandValue(after[..j]) < 17 {
      if j < |before| {
        assert after[..j] == before[..j];
      }
    }
  }

  /** Drawing the card below the remaining deck extends the reversed drawn run by it. */
  lemma DealerStep(deck0: seq<Card>, rest: seq<Card>, c: Card)
    requires |rest| + 1 <= |deck0| && rest + [c] == deck0[..|rest| + 1]
    ensures rest == deck0[..|rest|]
    ensures Reversed(deck0[|rest|..]) == Reversed(deck0[|rest| + 1..]) + [c]
  {
    assert deck0[..|rest|] == deck0[..|rest| + 1][..|rest|];
    assert deck0[|rest|..] == [c] + deck0[|rest| + 1..];
    ReversedCons(c, deck0[|rest| + 1..]);
  }

  /** The cards in play are always the 52 of one deck. */
  lemma CardsConserved(g: Game)
    requires g.Valid()
    ensures |g.deck.cards| + |g.playerHand.cards| + |g.dealerHand.cards| == 52
  {
    assert |multiset(FullDeck())| == 52;
  }

  /** A dealer holding king and jack (20) draws nothing more. */
  lemma DealerStandsOnTwenty(hand0: seq<Card>, hand: seq<Card>)
    requires hand0 == [Card(Spades, King), Card(Spades, Jack)] && hand0 <= hand
    requires forall j | |hand0| <= j < |hand| :: HandValue(hand[..j]) < 17
    ensures hand == hand0
  {
    if |hand| > 2 {
      assert hand[..2] == hand0;
      ExampleDealerValue();
      assert false;
    }
  }

  lemma ExampleDealerValue()
    ensures HandValue([Card(Spades, King), Card(Spades, Jack)]) == 20
  {
    assert [Card(Spades, King), Card(Spades, Jack)][..1] == [Card(Spades, King)];
    assert [Card(Spades, King)][..0] == [];
  }

  /**
   * The scenarios of game.rs: two cards each after dealing, three for the
   * player after a hit, and after the dealer's turn at least two dealer
   * cards worth 17 or more.
   */
  method Scenarios() returns (dealt: (nat, nat), afterHit: nat, dealerCards: nat, dealerValue: nat)
    ensures dealt == (2, 2) && afterHit == 3
    ensures dealerCards >= 2 && dealerValue >= 17
  {
    var g := new Game();
    dealt := (|g.playerHand.Cards()|, |g.dealerHand.Cards()|);
    g.PlayerHit();
    afterHit := |g.playerHand.Cards()|;
    g := new Game();
    ghost var hand0 := g.dealerHand.cards;
    g.DealerPlay();
    DealerStandsOnTwenty(hand0, g.dealerHand.cards);
    ExampleDealerValue();
    dealerCards := |g.dealerHand.Cards()|;
    dealerValue := g.dealerHand.Value();
  }

  /**
   * A whole round of the unshuffled game as the example's main program
   * plays it: the player holds ace and queen of spades (21) and stands,
   * the dealer holds king and jack (20) and stands, and the player wins.
   */
  method UnshuffledRound() returns (player: nat, dealer: nat, r: GameResult)
    ensures player == 21 && dealer == 20 && r == PlayerWins
  {
    var g := new Game();
    TwoCardTwentyOne(Card(Spades, Ace), Card(Spades, Queen));
    // 21 is not below 17, so the player never hits
    player := g.playerHand.Value();
    ghost var hand0 := g.dealerHand.cards;
    g.DealerPlay();
    DealerStandsOnTwenty(hand0, g.dealerHand.cards);
    ExampleDealerValue();
    dealer := g.dealerHand.Value();
    r := g.Result();
  }
}
