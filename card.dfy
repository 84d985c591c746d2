/**
 * Playing cards of the blackjack example
 * (chompie/examples/blackjack_chomped/src/card.rs): the blackjack value
 * of a card and its display text, rank then suit symbol.
 */
module PlayingCards {
  import opened Wrappers

  datatype Suit = Hearts | Diamonds | Clubs | Spades

  datatype Rank = Two | Three | Four | Five | Six | Seven | Eight | Nine | Ten | Jack | Queen | King | Ace

  datatype Card = Card(suit: Suit, rank: Rank)

  /** The text of a rank: its number, or J, Q, K, A. */
  function RankText(r: Rank): string
  {
    match r
    case Two => "2"
    case Three => "3"
    case Four => "4"
    case Five => "5"
    case Six => "6"
    case Seven => "7"
    case Eight => "8"
    case Nine => "9"
    case Ten => "10"
    case Jack => "J"
    case Queen => "Q"
    case King => "K"
    case Ace => "A"
  }

  function SuitText(s: Suit): string
  {
    match s
    case Hearts => "♥"
    case Diamonds => "♦"
    case Clubs => "♣"
    case Spades => "♠"
  }

  /**
   * A number card is worth its number, a picture card 10 and an ace 11;
   * so the value lies in [2, 11], and a value below 10 is the digit the
   * card shows.
   */
  function Value(c: Card): (v: nat)
    ensures 2 <= v <= 11
    ensures v == 11 <==> c.rank == Ace
    ensures v == 10 <==> c.rank in {Ten, Jack, Queen, King}
    ensures v < 10 ==> RankText(c.rank) == [('0' as int + v) as char]
  {
    match c.rank
    case Two => 2
    case Three => 3
    case Four => 4
    case Five => 5
    case Six => 6
    case Seven => 7
    case Eight => 8
    case Nine => 9
    case Ten | Jack | Queen | King => 10
    case Ace => 11
  }

  /** The card's text: its rank text followed by its suit symbol. */
  function Display(c: Card): (s: string)
    ensures |s| >= 2 && s[|s| - 1] == SuitText(c.suit)[0]
  {
    RankText(c.rank) + SuitText(c.suit)
  }

  function ParseRank(s: string): Option<Rank>
  {
    if s == "2" then Some(Two)
    else if s == "3" then Some(Three)
    else if s == "4" then Some(Four)
    else if s == "5" then Some(Five)
    else if s == "6" then Some(Six)
    else if s == "7" then Some(Seven)
    else if s == "8" then Some(Eight)
    else if s == "9" then Some(Nine)
    else if s == "10" then Some(Ten)
    else if s == "J" then Some(Jack)
    else if s == "Q" then Some(Queen)
    else if s == "K" then Some(King)
    else if s == "A" then Some(Ace)
    else None
  }

  function ParseSuit(ch: char): Option<Suit>
  {
    if ch == '♥' then Some(Hearts)
    else if ch == '♦' then Some(Diamonds)
    else if ch == '♣' then Some(Clubs)
    else if ch == '♠' then Some(Spades)
    else None
  }

  /** Reads a card back from its text: the last character is the suit, the rest the rank. */
  function Parse(s: string): Option<Card>
  {
    if |s| == 0 then None
    else match (ParseRank(s[..|s| - 1]), ParseSuit(s[|s| - 1]))
      case (Some(r), Some(u)) => Some(Card(u, r))
      case _ => None
  }

  /** Each rank and each suit has one text, and the text determines it. */
  lemma TextsDistinct(r: Rank, r': Rank, u: Suit, u': Suit)
    ensures |SuitText(u)| == 1
    ensures ParseRank(RankText(r)) == Some(r) && ParseSuit(SuitText(u)[0]) == Some(u)
    ensures RankText(r) == RankText(r') ==> r == r'
    ensures SuitText(u) == SuitText(u') ==> u == u'
  {
    RankRoundTrip(r);
    RankRoundTrip(r');
    SuitRoundTrip(u);
    SuitRoundTrip(u');
  }

  lemma RankRoundTrip(r: Rank)
    ensures ParseRank(RankText(r)) == Some(r)
  {
    match r
    case Two =>
    case Three =>
    case Four =>
    case Five =>
    case Six =>
    case Seven =>
    case Eight =>
    case Nine =>
    case Ten =>
    case Jack =>
    case Queen =>
    case King =>
    case Ace =>
  }

  lemma SuitRoundTrip(u: Suit)
    ensures |SuitText(u)| == 1 && ParseSuit(SuitText(u)[0]) == Some(u)
  {
  }

  /** Displaying then parsing gives the card back. */
  lemma {:induction false} ParseDisplay(c: Card)
    ensures Parse(Display(c)) == Some(c)
  {
    var s := Display(c);
    TextsDistinct(c.rank, c.rank, c.suit, c.suit);
    assert s[..|s| - 1] == RankText(c.rank);
  }

  /** A text that parses is the display of the card it parses to. */
  lemma {:induction false} DisplayParse(s: string)
    requires Parse(s).Some?
    ensures Display(Parse(s).value) == s
  {
    var r := ParseRank(s[..|s| - 1]).value;
    var u := ParseSuit(s[|s| - 1]).value;
    assert RankText(r) == s[..|s| - 1];
    assert SuitText(u) == [s[|s| - 1]];
    assert s == s[..|s| - 1] + [s[|s| - 1]];
  }

  /** Different cards display differently. */
  lemma {:induction false} DisplayInjective(c: Card, d: Card)
    requires Display(c) == Display(d)
    ensures c == d
  {
    ParseDisplay(c);
    ParseDisplay(d);
  }

  /** The values and the display of the source's example cards. */
  lemma ExampleCards()
    ensures Value(Card(Hearts, Five)) == 5
    ensures Value(Card(Spades, King)) == 10
    ensures Value(Card(Diamonds, Ace)) == 11
    ensures Display(Card(Hearts, Ace)) == "A♥"
  {
  }
}
