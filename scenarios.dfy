/** The examples of the turn's behaviour, each played on freshly built decks,
    players and turns, with what they observe stated as postconditions. */
module Scenarios {
  import opened Cards
  import opened TurnRules
  import opened Game

  // The cards of the examples, by rank.
  const Jack := Card(11)
  const Ten := Card(10)
  const Nine := Card(9)
  const Eight := Card(8)
  const Queen := Card(12)
  const Three := Card(3)
  const Two := Card(2)

  /** Builds two decks, their players and a fresh turn between them. */
  method Deal(cards1: seq<Card>, cards2: seq<Card>) returns (turn: Turn)
    ensures fresh(turn) && fresh(turn.player1) && fresh(turn.player2)
    ensures fresh(turn.player1.deck) && fresh(turn.player2.deck)
    ensures turn.Valid() && turn.State() == Table(cards1, cards2, [])
  {
    var deck1 := new Deck(cards1);
    var deck2 := new Deck(cards2);
    var player1 := new Player(deck1);
    var player2 := new Player(deck2);
    turn := new Turn(player1, player2);
  }

  /** A fresh turn holds the two players it was given and empty spoils. */
  method InitScenario() returns (samePlayers: bool, spoils: seq<Card>)
    ensures samePlayers && spoils == []
  {
    var deck1 := new Deck([Jack, Ten, Nine, Jack]);
    var deck2 := new Deck([Jack, Ten, Nine, Jack]);
    var player1 := new Player(deck1);
    var player2 := new Player(deck2);
    var turn := new Turn(player1, player2);
    samePlayers := turn.player1 == player1 && turn.player2 == player2;
    spoils := turn.spoils;
  }

  /** J-10-8-2 against 9-J-Q-3: a basic turn the first player wins, and the
      second player when the seats are swapped. */
  method BasicClassificationScenario() returns (kind: Kind, basic: bool, winner: Outcome, swapped: Seat)
    ensures kind == Basic && basic && winner == Won(First) && swapped == Second
  {
    var deck1 := new Deck([Jack, Ten, Eight, Two]);
    var deck2 := new Deck([Nine, Jack, Queen, Three]);
    var player1 := new Player(deck1);
    var player2 := new Player(deck2);
    var turn := new Turn(player1, player2);
    kind := turn.Type();
    basic := IsBasic(deck1.cards, deck2.cards);
    winner := turn.Winner();
    var seated1 := new Player(deck2);
    var seated2 := new Player(deck1);
    var reversed := new Turn(seated1, seated2);
    swapped := BasicTurnWinner(reversed.player1.deck.cards, reversed.player2.deck.cards);
  }

  /** Piling the basic turn puts 2 cards in the spoils; awarding them to the
      first player takes its 3 remaining cards to 5. */
  method BasicPileAndAwardScenario() returns (spoilsAfterPile: nat, winnerCards: nat)
    ensures spoilsAfterPile == 2 && winnerCards == 5
  {
    var turn := Deal([Jack, Ten, Eight, Two], [Nine, Jack, Queen, Three]);
    turn.PileCards();
    spoilsAfterPile := |turn.spoils|;
    turn.AwardSpoils(Won(First));
    winnerCards := |turn.player1.deck.cards|;
  }

  /** `send_two_to_spoils` leaves 2 cards in the spoils and 3 in each deck. */
  method SendTwoScenario() returns (spoilsCount: nat, cards1: nat, cards2: nat)
    ensures spoilsCount == 2 && cards1 == 3 && cards2 == 3
  {
    var turn := Deal([Jack, Ten, Eight, Two], [Nine, Jack, Queen, Three]);
    turn.SendTwoToSpoils();
    spoilsCount := |turn.spoils|;
    cards1 := |turn.player1.deck.cards|;
    cards2 := |turn.player2.deck.cards|;
  }

  /** J-10-3-Q against J-9-Q-3: the top cards tie and the cards at index 2 (3
      against Q) decide a war for the second player; with the seats swapped the
      comparison at index 2 goes to the first. */
  method WarClassificationScenario() returns (kind: Kind, war: bool, winner: Outcome, warWinner: Seat, atSecond: Seat, swapped: Seat)
    ensures kind == War && war && winner == Won(Second) && warWinner == Second
    ensures atSecond == Second && swapped == First
  {
    var deck3 := new Deck([Jack, Ten, Three, Queen]);
    var deck4 := new Deck([Jack, Nine, Queen, Three]);
    var player3 := new Player(deck3);
    var player4 := new Player(deck4);
    var turn := new Turn(player3, player4);
    kind := turn.Type();
    war := IsWar(deck3.cards, deck4.cards);
    winner := turn.Winner();
    warWinner := WarTurnWinner(deck3.cards, deck4.cards);
    atSecond := CompareCardAtSecondPosition(deck3.cards, deck4.cards);
    swapped := CompareCardAtSecondPosition(deck4.cards, deck3.cards);
  }

  /** Taking three cards off the end of one deck (leaving it 1 card) makes that
      player forfeit the war, in either seat. */
  method WarForfeitScenario() returns (firstShort: Seat, secondShort: Seat)
    ensures firstShort == Second && secondShort == First
  {
    var deck3 := new Deck([Jack, Ten, Three, Queen]);
    var deck4 := new Deck([Jack, Nine, Queen, Three]);
    deck3.cards := deck3.cards[..|deck3.cards| - 3];
    firstShort := WarTurnWinner(deck3.cards, deck4.cards);

    var deck5 := new Deck([Jack, Ten, Three, Queen]);
    var deck6 := new Deck([Jack, Nine, Queen, Three]);
    deck6.cards := deck6.cards[..|deck6.cards| - 3];
    secondShort := WarTurnWinner(deck5.cards, deck6.cards);
  }

  /** Piling the war turn, or sending six directly, puts 6 cards in the spoils. */
  method WarPileScenario() returns (piled: nat, sent: nat)
    ensures piled == 6 && sent == 6
  {
    var turn := Deal([Jack, Ten, Three, Queen], [Jack, Nine, Queen, Three]);
    turn.PileCards();
    piled := |turn.spoils|;
    var other := Deal([Jack, Ten, Three, Queen], [Jack, Nine, Queen, Three]);
    other.SendSixToSpoils();
    sent := |other.spoils|;
  }

  /** The war turn awarded to `winner` read AFTER piling: the decks left are Q
      against 3, a basic turn for the first player, whose one card becomes 7 while
      the spoils empty. Read before piling, the winner was the second player. */
  method WarAwardScenario() returns (before: Outcome, after: Outcome, cards1: nat, spoils: seq<Card>)
    ensures before == Won(Second) && after == Won(First)
    ensures cards1 == 7 && spoils == []
  {
    var turn := Deal([Jack, Ten, Three, Queen], [Jack, Nine, Queen, Three]);
    before := turn.Winner();
    turn.PileCards();
    after := turn.Winner();
    turn.AwardSpoils(after);
    cards1 := |turn.player1.deck.cards|;
    spoils := turn.spoils;
  }

  /** J-10-8-2 against J-9-8-3: ties at index 0 and 2, no winner; piling leaves
      one card in each deck and nothing in the spoils. */
  method MadScenario() returns (kind: Kind, winner: Outcome, freshSpoils: seq<Card>, cards1: nat, cards2: nat, spoils: seq<Card>)
    ensures kind == MutuallyAssuredDestruction && winner == NoWinner
    ensures freshSpoils == [] && cards1 == 1 && cards2 == 1 && spoils == []
  {
    var turn := Deal([Jack, Ten, Eight, Two], [Jack, Nine, Eight, Three]);
    kind := turn.Type();
    winner := turn.Winner();
    freshSpoils := turn.spoils;
    turn.PileCards();
    cards1 := |turn.player1.deck.cards|;
    cards2 := |turn.player2.deck.cards|;
    spoils := turn.spoils;
  }

  /** J-10-9-J against itself is mutually assured destruction; J-10-10-J against
      J-10-9-J is not. */
  method MadPredicateScenario() returns (same: bool, different: bool)
    ensures same && !different
  {
    same := IsMad([Jack, Ten, Nine, Jack], [Jack, Ten, Nine, Jack]);
    different := IsMad([Jack, Ten, Ten, Jack], [Jack, Ten, Nine, Jack]);
  }

  /** `remove_six_cards` on two 4-card decks leaves one card in each. */
  method RemoveSixScenario() returns (cards1: nat, cards2: nat)
    ensures cards1 == 1 && cards2 == 1
  {
    var turn := Deal([Jack, Ten, Nine, Jack], [Jack, Ten, Nine, Jack]);
    turn.RemoveSixCards();
    cards1 := |turn.player1.deck.cards|;
    cards2 := |turn.player2.deck.cards|;
  }

  /** A player with no cards can take part in a turn, and then some player holds
      fewer than 3 cards. */
  method FinalTurnScenario() returns (cards1: nat, underThree: bool)
    ensures cards1 == 0 && underThree
  {
    var turn := Deal([], [Nine, Jack, Queen, Three]);
    cards1 := |turn.player1.deck.cards|;
    underThree := CardCountUnderThree(turn.player1.deck.cards, turn.player2.deck.cards);
  }

  /** Two 4-card decks are both deep enough; once one is emptied they are not. */
  method CardCountOverThreeScenario() returns (before: bool, after: bool)
    ensures before && !after
  {
    var turn := Deal([Jack, Ten, Nine, Jack], [Jack, Ten, Nine, Jack]);
    before := CardCountOverThree(turn.player1.deck.cards, turn.player2.deck.cards);
    turn.player1.deck.cards := [];
    after := CardCountOverThree(turn.player1.deck.cards, turn.player2.deck.cards);
  }
}
