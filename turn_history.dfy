/** Any sequence of the turn's card-moving calls, and what it does to the cards
    on the table. */
module TurnHistory {
  import opened Cards
  import opened TurnRules

  /** One of the turn's card-moving operations. `pile_cards` is always one of the
      first three, chosen by the kind of the turn. */
  datatype Move = SendTwoMove | SendSixMove | RemoveSixMove | AwardMove(recipient: Outcome)

  function Apply(t: Table, m: Move): Table
  {
    match m
    case SendTwoMove => SendTwo(t)
    case SendSixMove => SendSix(t)
    case RemoveSixMove => RemoveSix(t)
    case AwardMove(w) => Award(t, w)
  }

  /** The cards a move takes out of play: only `remove_six_cards` discards any. */
  function Discarded(t: Table, m: Move): multiset<Card>
  {
    if m == RemoveSixMove then multiset(Take(t.deck1, 3)) + multiset(Take(t.deck2, 3)) else multiset{}
  }

  /** The table after the moves, in order. */
  function Play(t: Table, moves: seq<Move>): Table
    decreases |moves|
  {
    if moves == [] then t else Play(Apply(t, moves[0]), moves[1..])
  }

  /** Every card the moves take out of play, in order. */
  function AllDiscarded(t: Table, moves: seq<Move>): multiset<Card>
    decreases |moves|
  {
    if moves == [] then multiset{} else Discarded(t, moves[0]) + AllDiscarded(Apply(t, moves[0]), moves[1..])
  }

  /** One move keeps every card on the table except those it discards. */
  lemma MoveAccounts(t: Table, m: Move)
    ensures AllCards(t) == AllCards(Apply(t, m)) + Discarded(t, m)
  {
    match m
    case SendTwoMove => SendTwoConserves(t);
    case SendSixMove => SendSixConserves(t);
    case RemoveSixMove => RemoveSixDiscards(t);
    case AwardMove(w) => AwardConserves(t, w);
  }

  /** Whatever the order and number of piling and awarding calls on a turn, the
      cards on the table afterwards together with the discarded ones are exactly
      the cards before: no card is created, duplicated or lost. */
  lemma {:induction false} PlayAccounts(t: Table, moves: seq<Move>)
    ensures AllCards(t) == AllCards(Play(t, moves)) + AllDiscarded(t, moves)
    decreases |moves|
  {
    if moves != [] {
      MoveAccounts(t, moves[0]);
      PlayAccounts(Apply(t, moves[0]), moves[1..]);
    }
  }

  /** Without `remove_six_cards`, the multiset of cards on the table never changes. */
  lemma {:induction false} PlayConserves(t: Table, moves: seq<Move>)
    requires forall i :: 0 <= i < |moves| ==> moves[i] != RemoveSixMove
    ensures AllCards(Play(t, moves)) == AllCards(t)
    decreases |moves|
  {
    if moves != [] {
      MoveAccounts(t, moves[0]);
      PlayConserves(Apply(t, moves[0]), moves[1..]);
    }
  }
}
