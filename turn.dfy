/** The `Turn` object: it borrows two players, keeps the spoils of war, answers
    queries from the current deck contents and moves cards between the decks and
    the spoils. */
module Game {
  import opened Cards
  import opened TurnRules

  /** A player: its identity (the name is not modelled) and the deck it owns. */
  class Player {
    const deck: Deck

    constructor (deck: Deck)
      ensures this.deck == deck
    {
      this.deck := deck;
    }
  }

  class Turn {
    const player1: Player
    const player2: Player
    var spoils: seq<Card>

    /** The two players hold two different decks. */
    ghost predicate Valid()
    {
      player1.deck != player2.deck
    }

    /** The cards on the table right now. */
    function State(): Table
      reads this, player1.deck, player2.deck
    {
      Table(player1.deck.cards, player2.deck.cards, spoils)
    }

    /** A fresh turn of two players, with no spoils yet; either deck may be empty. */
    constructor (player1: Player, player2: Player)
      requires player1.deck != player2.deck
      ensures this.player1 == player1 && this.player2 == player2
      ensures spoils == []
      ensures Valid()
    {
      this.player1 := player1;
      this.player2 := player2;
      this.spoils := [];
    }

    /** `type`, recomputed from the current decks. */
    function Type(): (k: Kind)
      reads player1.deck, player2.deck
      requires Contested(player1.deck.cards, player2.deck.cards)
      ensures k == Basic <==> IsBasic(player1.deck.cards, player2.deck.cards)
      ensures k == War <==> IsWar(player1.deck.cards, player2.deck.cards)
      ensures k == MutuallyAssuredDestruction <==> IsMad(player1.deck.cards, player2.deck.cards)
    {
      Classify(player1.deck.cards, player2.deck.cards)
    }

    /** `winner`, recomputed from the current decks. */
    function Winner(): (w: Outcome)
      reads player1.deck, player2.deck
      requires Contested(player1.deck.cards, player2.deck.cards)
      ensures w == NoWinner <==> IsMad(player1.deck.cards, player2.deck.cards)
      ensures IsBasic(player1.deck.cards, player2.deck.cards) ==>
                w == Won(BasicTurnWinner(player1.deck.cards, player2.deck.cards))
      ensures IsWar(player1.deck.cards, player2.deck.cards) ==>
                w == Won(WarTurnWinner(player1.deck.cards, player2.deck.cards))
    {
      TurnRules.Winner(player1.deck.cards, player2.deck.cards)
    }

    /** The player sitting in seat `s` (what `winner` returns when it names a player). */
    function PlayerAt(s: Seat): Player
    {
      if s == First then player1 else player2
    }

    method SendTwoToSpoils()
      requires Valid()
      modifies this, player1.deck, player2.deck
      ensures State() == SendTwo(old(State()))
    {
      var top1 := player1.deck.RemoveFront(1);
      var top2 := player2.deck.RemoveFront(1);
      spoils := spoils + top1 + top2;
    }

    method SendSixToSpoils()
      requires Valid()
      modifies this, player1.deck, player2.deck
      ensures State() == SendSix(old(State()))
    {
      var top1 := player1.deck.RemoveFront(3);
      var top2 := player2.deck.RemoveFront(3);
      spoils := spoils + top1 + top2;
    }

    method RemoveSixCards()
      requires Valid()
      modifies player1.deck, player2.deck
      ensures State() == RemoveSix(old(State()))
    {
      var _ := player1.deck.RemoveFront(3);
      var _ := player2.deck.RemoveFront(3);
    }

    /** `pile_cards`: classifies the turn on the current decks, then piles or discards. */
    method PileCards()
      requires Valid() && Contested(player1.deck.cards, player2.deck.cards)
      modifies this, player1.deck, player2.deck
      ensures State() == Pile(old(State()))
    {
      match Type()
      case Basic => SendTwoToSpoils();
      case War => SendSixToSpoils();
      case MutuallyAssuredDestruction => RemoveSixCards();
    }

    /** `award_spoils`: the whole spoils go to the back of the recipient's deck and
        the spoils are reset; awarding to no one changes nothing. */
    method AwardSpoils(w: Outcome)
      requires Valid()
      modifies this, player1.deck, player2.deck
      ensures State() == Award(old(State()), w)
    {
      match w
      case Won(s) =>
        PlayerAt(s).deck.Append(spoils);
        spoils := [];
      case NoWinner =>
    }
  }
}
