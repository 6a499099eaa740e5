/** The decision logic of one turn of War, as pure functions of the two decks:
    how the turn is classified, who wins it, and what piling and awarding do to
    the cards on the table. */
module TurnRules {
  import opened Cards

  /** The three kinds of turn (Ruby's :basic, :war, :mutually_assured_destruction). */
  datatype Kind = Basic | War | MutuallyAssuredDestruction

  /** A seat at the table: the turn's first or second player. */
  datatype Seat = First | Second

  /** The result of `winner`: a player, or the "No Winner" outcome of a
      mutually-assured-destruction turn. */
  datatype Outcome = Won(seat: Seat) | NoWinner

  function Other(s: Seat): Seat
  {
    if s == First then Second else First
  }

  /** The outcome seen from the other side of the table. */
  function Swapped(w: Outcome): Outcome
  {
    match w
    case Won(s) => Won(Other(s))
    case NoWinner => NoWinner
  }

  /** The deck held by seat `s`. */
  function Hand(d1: seq<Card>, d2: seq<Card>, s: Seat): seq<Card>
  {
    if s == First then d1 else d2
  }

  /** Both players still have a top card, so the turn can be classified. */
  predicate Contested(d1: seq<Card>, d2: seq<Card>)
  {
    |d1| > 0 && |d2| > 0
  }

  /** The depth rule of a war: both players can put down three cards, so the
      cards at index 2 can be compared. */
  predicate BothHoldThree(d1: seq<Card>, d2: seq<Card>)
  {
    |d1| >= 3 && |d2| >= 3
  }

  /** `card_count_under_three?`: some player holds fewer than 3 cards, which is
      exactly when a war cannot be contested by both players. */
  predicate CardCountUnderThree(d1: seq<Card>, d2: seq<Card>)
    ensures CardCountUnderThree(d1, d2) <==> !BothHoldThree(d1, d2)
  {
    |d1| < 3 || |d2| < 3
  }

  /** `card_count_over_three?`, read as "both players hold at least 3 cards": the
      complement of `card_count_under_three?`. */
  predicate CardCountOverThree(d1: seq<Card>, d2: seq<Card>)
    ensures CardCountOverThree(d1, d2) <==> !CardCountUnderThree(d1, d2)
  {
    |d1| >= 3 && |d2| >= 3
  }

  /** `basic_turn?`: the top cards differ in rank; it holds exactly when neither
      of the other two kinds does. */
  predicate IsBasic(d1: seq<Card>, d2: seq<Card>)
    requires Contested(d1, d2)
    ensures IsBasic(d1, d2) <==> !IsWar(d1, d2) && !IsMad(d1, d2)
  {
    d1[0].rank != d2[0].rank
  }

  /** `war_turn?`: the top cards tie, and either some deck is too short to
      compare the cards at index 2 or those cards differ. A war is never also a
      mutually-assured-destruction turn, and every tie against a short deck is one. */
  predicate IsWar(d1: seq<Card>, d2: seq<Card>)
    requires Contested(d1, d2)
    ensures IsWar(d1, d2) ==> !IsMad(d1, d2)
    ensures d1[0].rank == d2[0].rank && !BothHoldThree(d1, d2) ==> IsWar(d1, d2)
  {
    d1[0].rank == d2[0].rank && (!BothHoldThree(d1, d2) || d1[2].rank != d2[2].rank)
  }

  /** `m_a_d_turn?`: both decks hold 3 cards and they tie at index 0 and at index 2.
      It never holds against a deck of fewer than 3 cards. */
  predicate IsMad(d1: seq<Card>, d2: seq<Card>)
    requires Contested(d1, d2)
    ensures IsMad(d1, d2) ==> |d1| >= 3 && |d2| >= 3 && d1[2].rank == d2[2].rank
  {
    d1[0].rank == d2[0].rank && BothHoldThree(d1, d2) && d1[2].rank == d2[2].rank
  }

  /** `type`: the kind of the turn. The depth check comes before any read at index 2. */
  function Classify(d1: seq<Card>, d2: seq<Card>): (k: Kind)
    requires Contested(d1, d2)
    ensures k == Basic <==> IsBasic(d1, d2)
    ensures k == War <==> IsWar(d1, d2)
    ensures k == MutuallyAssuredDestruction <==> IsMad(d1, d2)
  {
    if d1[0].rank != d2[0].rank then Basic
    else if |d1| < 3 || |d2| < 3 then War
    else if d1[2].rank != d2[2].rank then War
    else MutuallyAssuredDestruction
  }

  /** `basic_turn_winner`: the owner of the higher top card. */
  function BasicTurnWinner(d1: seq<Card>, d2: seq<Card>): (s: Seat)
    requires Contested(d1, d2)
    ensures IsBasic(d1, d2) ==> Hand(d1, d2, s)[0].rank > Hand(d1, d2, Other(s))[0].rank
  {
    if d1[0].rank > d2[0].rank then First else Second
  }

  /** `compare_card_at_second_position`: the owner of the higher card at index 2. */
  function CompareCardAtSecondPosition(d1: seq<Card>, d2: seq<Card>): (s: Seat)
    requires BothHoldThree(d1, d2)
    ensures d1[2].rank != d2[2].rank ==> Hand(d1, d2, s)[2].rank > Hand(d1, d2, Other(s))[2].rank
  {
    if d1[2].rank > d2[2].rank then First else Second
  }

  /** `war_turn_winner`: a player who cannot put 3 cards down forfeits to the
      other whatever the ranks; otherwise the cards at index 2 decide. */
  function WarTurnWinner(d1: seq<Card>, d2: seq<Card>): (s: Seat)
    ensures |d1| < 3 && |d2| >= 3 ==> s == Second
    ensures |d2| < 3 && |d1| >= 3 ==> s == First
    ensures BothHoldThree(d1, d2) && d1[2].rank != d2[2].rank ==>
              Hand(d1, d2, s)[2].rank > Hand(d1, d2, Other(s))[2].rank
  {
    if |d1| < 3 then Second
    else if |d2| < 3 then First
    else CompareCardAtSecondPosition(d1, d2)
  }

  /** `winner`: dispatches on the kind of the turn. */
  function Winner(d1: seq<Card>, d2: seq<Card>): (w: Outcome)
    requires Contested(d1, d2)
    ensures w == NoWinner <==> IsMad(d1, d2)
    ensures IsBasic(d1, d2) ==> w == Won(BasicTurnWinner(d1, d2))
    ensures IsWar(d1, d2) ==> w == Won(WarTurnWinner(d1, d2))
  {
    match Classify(d1, d2)
    case Basic => Won(BasicTurnWinner(d1, d2))
    case War => Won(WarTurnWinner(d1, d2))
    case MutuallyAssuredDestruction => NoWinner
  }

  /** Swapping the seats never changes the kind of the turn. */
  lemma ClassifySymmetric(d1: seq<Card>, d2: seq<Card>)
    requires Contested(d1, d2)
    ensures Classify(d2, d1) == Classify(d1, d2)
  {
  }

  /** Swapping the seats swaps the winner, except in a war where both decks are
      too short (a case the rules leave to seat order). */
  lemma WinnerSymmetric(d1: seq<Card>, d2: seq<Card>)
    requires Contested(d1, d2)
    requires !(IsWar(d1, d2) && |d1| < 3 && |d2| < 3)
    ensures Winner(d2, d1) == Swapped(Winner(d1, d2))
  {
    ClassifySymmetric(d1, d2);
  }

  /** Whoever wins a basic or war turn holds the deciding higher card, or faces a
      player who cannot contest the war. */
  lemma WinnerJustified(d1: seq<Card>, d2: seq<Card>)
    requires Contested(d1, d2) && !IsMad(d1, d2)
    ensures Winner(d1, d2).Won?
    ensures var s := Winner(d1, d2).seat;
            var mine, theirs := Hand(d1, d2, s), Hand(d1, d2, Other(s));
            if IsBasic(d1, d2) then mine[0].rank > theirs[0].rank
            else |theirs| < 3 || (|mine| >= 3 && mine[2].rank > theirs[2].rank)
  {
    if !IsBasic(d1, d2) && BothHoldThree(d1, d2) {
      assert d1[2].rank != d2[2].rank;
    }
  }

  /** The cards on the table during a turn: both decks and the spoils of war. */
  datatype Table = Table(deck1: seq<Card>, deck2: seq<Card>, spoils: seq<Card>)
  {
    function DeckOf(s: Seat): seq<Card>
    {
      Hand(deck1, deck2, s)
    }
  }

  /** Every card on the table, as a multiset. */
  function AllCards(t: Table): multiset<Card>
  {
    multiset(t.deck1) + multiset(t.deck2) + multiset(t.spoils)
  }

  /** `send_two_to_spoils`: each player's top card goes to the back of the spoils,
      the first player's first. */
  function SendTwo(t: Table): (r: Table)
    ensures Contested(t.deck1, t.deck2) ==>
              t.deck1 == [t.deck1[0]] + r.deck1 && t.deck2 == [t.deck2[0]] + r.deck2 &&
              r.spoils == t.spoils + [t.deck1[0], t.deck2[0]]
  {
    Table(Drop(t.deck1, 1), Drop(t.deck2, 1), t.spoils + Take(t.deck1, 1) + Take(t.deck2, 1))
  }

  /** `send_six_to_spoils`: each player's top three cards (fewer when the deck is
      shorter) go to the back of the spoils, the first player's first. */
  function SendSix(t: Table): (r: Table)
    ensures BothHoldThree(t.deck1, t.deck2) ==>
              t.deck1 == t.deck1[..3] + r.deck1 && t.deck2 == t.deck2[..3] + r.deck2 &&
              r.spoils == t.spoils + t.deck1[..3] + t.deck2[..3]
  {
    Table(Drop(t.deck1, 3), Drop(t.deck2, 3), t.spoils + Take(t.deck1, 3) + Take(t.deck2, 3))
  }

  /** `remove_six_cards`: each player's top three cards leave the game; the spoils
      are untouched. */
  function RemoveSix(t: Table): (r: Table)
    ensures r.spoils == t.spoils
    ensures BothHoldThree(t.deck1, t.deck2) ==>
              t.deck1 == t.deck1[..3] + r.deck1 && t.deck2 == t.deck2[..3] + r.deck2
  {
    Table(Drop(t.deck1, 3), Drop(t.deck2, 3), t.spoils)
  }

  /** `pile_cards`: piles or discards according to the kind of the turn. */
  function Pile(t: Table): (r: Table)
    requires Contested(t.deck1, t.deck2)
    ensures IsBasic(t.deck1, t.deck2) ==>
              |r.spoils| == |t.spoils| + 2 && |r.deck1| == |t.deck1| - 1 && |r.deck2| == |t.deck2| - 1
    ensures IsWar(t.deck1, t.deck2) && BothHoldThree(t.deck1, t.deck2) ==>
              |r.spoils| == |t.spoils| + 6 && |r.deck1| == |t.deck1| - 3 && |r.deck2| == |t.deck2| - 3
    ensures IsMad(t.deck1, t.deck2) ==>
              r.spoils == t.spoils && |r.deck1| == |t.deck1| - 3 && |r.deck2| == |t.deck2| - 3
  {
    match Classify(t.deck1, t.deck2)
    case Basic => SendTwo(t)
    case War => SendSix(t)
    case MutuallyAssuredDestruction => RemoveSix(t)
  }

  /** `award_spoils`: the recipient's deck gains the whole spoils at its back and
      the spoils are reset; awarding to no one changes nothing. */
  function Award(t: Table, w: Outcome): (r: Table)
    ensures w == NoWinner ==> r == t
    ensures w.Won? ==>
              r.spoils == [] &&
              r.DeckOf(w.seat) == t.DeckOf(w.seat) + t.spoils &&
              r.DeckOf(Other(w.seat)) == t.DeckOf(Other(w.seat))
  {
    match w
    case Won(First) => Table(t.deck1 + t.spoils, t.deck2, [])
    case Won(Second) => Table(t.deck1, t.deck2 + t.spoils, [])
    case NoWinner => t
  }

  /** Piling a basic turn moves cards into the spoils and loses none. */
  lemma SendTwoConserves(t: Table)
    ensures AllCards(SendTwo(t)) == AllCards(t)
  {
    TakeDropMultiset(t.deck1, 1);
    TakeDropMultiset(t.deck2, 1);
  }

  /** Piling a war turn moves cards into the spoils and loses none. */
  lemma SendSixConserves(t: Table)
    ensures AllCards(SendSix(t)) == AllCards(t)
  {
    TakeDropMultiset(t.deck1, 3);
    TakeDropMultiset(t.deck2, 3);
  }

  /** Removing six cards takes exactly the decks' top three cards out of play. */
  lemma RemoveSixDiscards(t: Table)
    ensures AllCards(t) == AllCards(RemoveSix(t)) + multiset(Take(t.deck1, 3)) + multiset(Take(t.deck2, 3))
  {
    TakeDropMultiset(t.deck1, 3);
    TakeDropMultiset(t.deck2, 3);
  }

  /** Awarding moves the spoils to a deck and loses none. */
  lemma AwardConserves(t: Table, w: Outcome)
    ensures AllCards(Award(t, w)) == AllCards(t)
  {
    match w
    case Won(First) =>
      assert multiset(t.deck1 + t.spoils) == multiset(t.deck1) + multiset(t.spoils);
    case Won(Second) =>
      assert multiset(t.deck2 + t.spoils) == multiset(t.deck2) + multiset(t.spoils);
    case NoWinner =>
  }

  /** Piling a basic or war turn keeps every card in play. */
  lemma PileConserves(t: Table)
    requires Contested(t.deck1, t.deck2) && !IsMad(t.deck1, t.deck2)
    ensures AllCards(Pile(t)) == AllCards(t)
  {
    if IsBasic(t.deck1, t.deck2) {
      SendTwoConserves(t);
    } else {
      SendSixConserves(t);
    }
  }

  /** Awarding a pile of each deck's top `k` cards to seat `s`: the other deck keeps
      only its rest, and seat `s` gets both piles behind its own rest. */
  lemma AwardPiled(t: Table, k: nat, s: Seat)
    requires t.spoils == []
    ensures var r := Award(Table(Drop(t.deck1, k), Drop(t.deck2, k), Take(t.deck1, k) + Take(t.deck2, k)), Won(s));
            r.spoils == [] &&
            r.DeckOf(Other(s)) == Drop(t.DeckOf(Other(s)), k) &&
            r.DeckOf(s) == Drop(t.DeckOf(s), k) + Take(t.deck1, k) + Take(t.deck2, k)
  {
    var p := Table(Drop(t.deck1, k), Drop(t.deck2, k), Take(t.deck1, k) + Take(t.deck2, k));
    assert p.DeckOf(s) == Drop(t.DeckOf(s), k);
    assert p.DeckOf(Other(s)) == Drop(t.DeckOf(Other(s)), k);
  }

  /** A basic or war turn resolved in order, with the winner read before the cards
      are piled: every card stays in play, the spoils end empty, the loser loses its
      top `k` cards (1 for a basic turn, 3 for a war) and the winner gets all that
      was piled at the back of its own remaining deck. (PileConserves and
      AwardConserves give that no card leaves play.) */
  lemma DecidedTurn(t: Table)
    requires Contested(t.deck1, t.deck2) && !IsMad(t.deck1, t.deck2)
    requires t.spoils == []
    ensures var w := Winner(t.deck1, t.deck2);
            var k := if IsBasic(t.deck1, t.deck2) then 1 else 3;
            var r := Award(Pile(t), w);
            w.Won? &&
            r.spoils == [] &&
            r.DeckOf(Other(w.seat)) == Drop(t.DeckOf(Other(w.seat)), k) &&
            r.DeckOf(w.seat) == Drop(t.DeckOf(w.seat), k) + Take(t.deck1, k) + Take(t.deck2, k)
  {
    var w := Winner(t.deck1, t.deck2);
    var k := if IsBasic(t.deck1, t.deck2) then 1 else 3;
    var p := Pile(t);
    if IsBasic(t.deck1, t.deck2) {
      assert p == SendTwo(t);
    } else {
      assert p == SendSix(t);
    }
    assert p == Table(Drop(t.deck1, k), Drop(t.deck2, k), Take(t.deck1, k) + Take(t.deck2, k));
    AwardPiled(t, k, w.seat);
  }

  /** A mutually-assured-destruction turn has no winner; piling it takes three cards
      from each deck out of play, awarding then changes nothing, and the spoils stay
      as they were. */
  lemma MadTurn(t: Table)
    requires Contested(t.deck1, t.deck2) && IsMad(t.deck1, t.deck2)
    ensures var r := Award(Pile(t), Winner(t.deck1, t.deck2));
            Winner(t.deck1, t.deck2) == NoWinner &&
            r.spoils == t.spoils &&
            t.deck1 == t.deck1[..3] + r.deck1 && t.deck2 == t.deck2[..3] + r.deck2 &&
            AllCards(t) == AllCards(r) + multiset(t.deck1[..3]) + multiset(t.deck2[..3])
  {
    assert Pile(t) == RemoveSix(t);
    RemoveSixDiscards(t);
  }
}
