# War: the turn-resolution engine

A model of one turn of the two-player card game War, as fixed by the RSpec suite
`spec/turn_spec.rb` of the repository. A `Turn` borrows two players, each owning a
deck whose front is the top of the deck, and keeps a `spoils_of_war` pile. It:

- classifies the turn from the ranks of the cards at index 0 and index 2:
  `:basic` when the top cards differ in rank, `:war` when they tie and either a deck
  holds fewer than 3 cards or the cards at index 2 differ, and
  `:mutually_assured_destruction` when both positions tie on decks of at least 3 cards;
- names the winner: the owner of the higher top card (basic), the owner of the
  higher card at index 2 or the opponent of a player who cannot put 3 cards down
  (war), or no one (mutually assured destruction);
- piles cards: 1 from each deck into the spoils (basic), 3 from each deck into the
  spoils (war), or 3 from each deck out of the game (mutually assured destruction);
- awards the spoils: the whole pile goes to the back of the recipient's deck and the
  pile is reset.

The Ruby implementation of `Turn`, `Deck`, `Card` and `Player` is not part of this
model; their behaviour is taken from what the RSpec examples observe. Where the
examples leave a case open, the model makes a choice, and each such choice is listed
under "Left out".

Files:

- `cards.dfy`, module `Cards`: `Card` (rank only), `Take`/`Drop` on card sequences,
  and the `Deck` class whose `cards` field is reassigned in place.
- `turn_rules.dfy`, module `TurnRules`: the queries (`type` as `Classify`,
  `basic_turn?`, `war_turn?`, `m_a_d_turn?`, `winner` and its helpers, the card-count
  predicates) as pure functions of the two decks, and piling and awarding as
  functions on a `Table` value (both decks and the spoils), with the lemmas about them.
- `turn_history.dfy`, module `TurnHistory`: any sequence of the card-moving calls
  and the invariant that no card is created or lost except those discarded.
- `turn.dfy`, module `Game`: the `Player` and `Turn` classes. `Type()` and
  `Winner()` are recomputed from the current decks on every call, as the suite
  requires when it re-reads `winner` after piling (spec/turn_spec.rb:197). Each method
  that moves cards states its new `State()` as the corresponding `TurnRules`
  function of the old one.
- `scenarios.dfy`, module `Scenarios`: each RSpec example played on fresh objects,
  with the values it observes as postconditions.

`winner` returns the tagged value `Outcome = Won(Seat) | NoWinner`, where Ruby
returns a player or the string `'No Winner'`; `Seat` is `First` or `Second`, and
`Game.Turn.PlayerAt` maps it back to a player.

Call order: the example at spec/turn_spec.rb:194-200 reads `winner` after
`pile_cards`. On the decks left over (Q against 3) that makes a basic turn won by the
first player, who receives the six war cards although the war itself (3 against Q at
index 2) was the second player's. `Scenarios.WarAwardScenario` reproduces this, and
`TurnRules.DecidedTurn` states what happens when the winner is read before piling.

## Model

| member | source | states |
|---|---|---|
| Cards.Drop | spec/turn_spec.rb:92-97 | removing the top `n` cards leaves a deck `n` shorter (empty when it held fewer), and the removed front followed by the rest is the old deck |
| Cards.Deck.RemoveFront | spec/turn_spec.rb:95-96 | the deck loses its top `n` cards in place; exactly those are returned, in order |
| Cards.Deck.Append | spec/turn_spec.rb:86-87 | the given cards are added at the back of the deck, in order |
| TurnRules.IsBasic | spec/turn_spec.rb:43-47 | the definition of `basic_turn?`: the top cards differ in rank; it holds exactly when neither `war_turn?` nor `m_a_d_turn?` does |
| TurnRules.IsWar | spec/turn_spec.rb:108-112 | the definition of `war_turn?`: the top cards tie and either a deck holds fewer than 3 cards or the cards at index 2 differ; a war is never mutually assured destruction, and a tie against a short deck is always a war |
| TurnRules.IsMad | spec/turn_spec.rb:240-254 | the definition of `m_a_d_turn?`: ties at index 0 and index 2 on decks of at least 3 cards; it never holds against a deck of fewer than 3 cards |
| TurnRules.CardCountUnderThree | spec/turn_spec.rb:303-306 | the definition of `card_count_under_three?`: some deck holds fewer than 3 cards, exactly when the war depth rule `BothHoldThree` fails |
| TurnRules.CardCountOverThree | spec/turn_spec.rb:290-300 | the definition of `card_count_over_three?`, read as both decks holding at least 3 cards: exactly the complement of `card_count_under_three?` |
| TurnRules.Classify | spec/turn_spec.rb:37-40 | the kind is Basic exactly when `basic_turn?` holds, War exactly when `war_turn?` holds, and mutually assured destruction exactly when `m_a_d_turn?` holds (also lines 114-118, 219-222, 241-254) |
| TurnRules.BasicTurnWinner | spec/turn_spec.rb:56-69 | when the top cards differ, the seat returned holds the strictly higher top card, whichever seat that is |
| TurnRules.CompareCardAtSecondPosition | spec/turn_spec.rb:158-172 | when the cards at index 2 differ, the seat returned holds the strictly higher one, whichever seat that is |
| TurnRules.WarTurnWinner | spec/turn_spec.rb:129-156 | a player with fewer than 3 cards forfeits to an opponent with 3 or more, whatever the ranks; with both decks deep enough, the higher card at index 2 wins |
| TurnRules.Winner | spec/turn_spec.rb:49-53 | no winner exactly on a mutually-assured-destruction turn; otherwise the basic or the war winner, as the kind says (also lines 121-126, 233-237) |
| TurnRules.ClassifySymmetric | spec/turn_spec.rb:64-69 | swapping the two decks never changes the kind of the turn |
| TurnRules.WinnerSymmetric | spec/turn_spec.rb:64-69 | swapping the two decks swaps the winner, unless it is a war with both decks short (also lines 165-171) |
| TurnRules.WinnerJustified | spec/turn_spec.rb:121-136 | off a mutually-assured-destruction turn there is a winner, and it holds the higher top card (basic), or holds the higher card at index 2, or faces an opponent with fewer than 3 cards (war) |
| TurnRules.SendTwo | spec/turn_spec.rb:91-97 | with two non-empty decks, each deck loses exactly its top card and the spoils gain those two cards, first player's first |
| TurnRules.SendSix | spec/turn_spec.rb:186-190 | with two decks of at least 3 cards, each deck loses exactly its top three cards and the spoils gain those six, first player's first |
| TurnRules.RemoveSix | spec/turn_spec.rb:257-267 | the spoils are unchanged, and with decks of at least 3 cards each deck loses exactly its top three |
| TurnRules.Pile | spec/turn_spec.rb:72-78 | basic: spoils grow by 2 and each deck shrinks by 1; war on decks of at least 3: spoils grow by 6 and each deck shrinks by 3; mutually assured destruction: spoils unchanged and each deck shrinks by 3 (also lines 177-181, 225-230) |
| TurnRules.Award | spec/turn_spec.rb:81-88 | awarding to a player empties the spoils and puts all of them at the back of that player's deck, the other deck untouched; awarding to no one changes nothing (also lines 193-200) |
| TurnRules.SendTwoConserves | spec/turn_spec.rb:91-97 | piling a basic turn keeps the multiset of cards on the table |
| TurnRules.SendSixConserves | spec/turn_spec.rb:186-190 | piling a war turn keeps the multiset of cards on the table |
| TurnRules.RemoveSixDiscards | spec/turn_spec.rb:257-273 | the cards taken out of play are exactly the two decks' top three cards |
| TurnRules.AwardConserves | spec/turn_spec.rb:193-200 | awarding keeps the multiset of cards on the table |
| TurnRules.PileConserves | spec/turn_spec.rb:72-78 | piling a basic or war turn keeps the multiset of cards on the table |
| TurnRules.DecidedTurn | spec/turn_spec.rb:81-88 | a basic or war turn with the winner read before piling: there is a winner, the spoils end empty, the loser keeps only what follows its top `k` cards (1 basic, 3 war), and the winner's deck is its own rest followed by both piled fronts |
| TurnRules.MadTurn | spec/turn_spec.rb:225-237 | a mutually-assured-destruction turn has no winner, leaves the spoils as they were, takes exactly three cards off the front of each deck, and those six cards leave play |
| TurnHistory.MoveAccounts | spec/turn_spec.rb:72-97 | each piling, discarding or awarding call keeps every card on the table except the ones it discards, and only `remove_six_cards` discards |
| TurnHistory.PlayAccounts | spec/turn_spec.rb:193-200 | after any sequence of those calls, the cards on the table plus all discarded cards are exactly the cards before (as a multiset) |
| TurnHistory.PlayConserves | spec/turn_spec.rb:81-88 | a sequence of calls without `remove_six_cards` leaves the multiset of cards on the table unchanged |
| Game.Turn.constructor | spec/turn_spec.rb:22-27 | a fresh turn holds the two given players and empty spoils |
| Game.Turn.Type | spec/turn_spec.rb:114-118 | the definition of the object's `type`, recomputed from the current decks: Basic, War or mutually assured destruction exactly when the matching kind predicate holds of them |
| Game.Turn.Winner | spec/turn_spec.rb:121-126 | the definition of the object's `winner`, recomputed from the current decks (so re-read after piling at line 197): no winner exactly on mutually assured destruction, otherwise the basic or war winner of the current decks |
| Game.Turn.SendTwoToSpoils | spec/turn_spec.rb:91-97 | the decks and spoils afterwards are `SendTwo` of those before |
| Game.Turn.SendSixToSpoils | spec/turn_spec.rb:186-190 | the decks and spoils afterwards are `SendSix` of those before |
| Game.Turn.RemoveSixCards | spec/turn_spec.rb:257-267 | the decks and spoils afterwards are `RemoveSix` of those before |
| Game.Turn.PileCards | spec/turn_spec.rb:72-78 | the decks and spoils afterwards are `Pile` of those before (also lines 177-181, 225-230) |
| Game.Turn.AwardSpoils | spec/turn_spec.rb:193-200 | the decks and spoils afterwards are `Award` of those before |
| Scenarios.InitScenario | spec/turn_spec.rb:22-27 | a fresh turn reports the players it was built with and empty spoils |
| Scenarios.BasicClassificationScenario | spec/turn_spec.rb:37-69 | J-10-8-2 against 9-J-Q-3 is basic, `basic_turn?` holds, the first player wins, and with seats swapped the second does |
| Scenarios.BasicPileAndAwardScenario | spec/turn_spec.rb:72-88 | piling that basic turn leaves 2 spoils and awarding them to the first player gives it 5 cards |
| Scenarios.SendTwoScenario | spec/turn_spec.rb:91-97 | `send_two_to_spoils` leaves 2 spoils and 3 cards in each deck |
| Scenarios.WarClassificationScenario | spec/turn_spec.rb:108-172 | J-10-3-Q against J-9-Q-3 is a war, `war_turn?` holds, the second player wins it by the card at index 2, and the comparison at index 2 follows the seats |
| Scenarios.WarForfeitScenario | spec/turn_spec.rb:139-150 | with three cards popped off the end of one deck, that player forfeits the war, in either seat |
| Scenarios.WarPileScenario | spec/turn_spec.rb:177-190 | piling that war, or sending six, leaves 6 spoils |
| Scenarios.WarAwardScenario | spec/turn_spec.rb:193-200 | after piling the war, `winner` re-read is the first player (it was the second before piling); awarding to it gives it 7 cards and empties the spoils |
| Scenarios.MadScenario | spec/turn_spec.rb:219-237 | J-10-8-2 against J-9-8-3 is mutually assured destruction with no winner; the spoils start empty and piling leaves 1 card in each deck and nothing in the spoils (also lines 270-273) |
| Scenarios.MadPredicateScenario | spec/turn_spec.rb:240-254 | `m_a_d_turn?` holds for J-10-9-J against itself and not for J-10-10-J against J-10-9-J |
| Scenarios.RemoveSixScenario | spec/turn_spec.rb:257-267 | `remove_six_cards` on two 4-card decks leaves 1 card in each |
| Scenarios.FinalTurnScenario | spec/turn_spec.rb:277-306 | a turn can hold a player with no cards, and then `card_count_under_three?` holds |
| Scenarios.CardCountOverThreeScenario | spec/turn_spec.rb:290-300 | `card_count_over_three?` holds for two 4-card decks and fails once one deck is emptied |

## Left out

- Suits, rank labels and player names: they take part in no decision; cards carry their integer rank only, and players are told apart by identity.
- Deck construction, shuffling and the game loop that plays turns until a player runs out of cards: they are outside `Turn`.
- Awarding to a player who is not one of the turn's two players: the recipient is named by seat, as `winner` names it.
- `type`, the three kind predicates and `winner` require both decks to hold a card: they read the cards at index 0, and no example classifies a turn with an empty deck.
- The RSpec machinery (`let`, `expect`) and the examples' direct edits of `deck.cards` (`pop(3)`, `cards = []`), which appear in `Scenarios` only as setup that produces shorter decks.
- TurnRules.WarTurnWinner: says nothing about a war where both decks hold fewer than 3 cards; the model gives it to the second player, a case no example fixes.
- TurnRules.BasicTurnWinner: says nothing about tied top cards; the model returns the second player, a case no example fixes.
- TurnRules.SendSix: says nothing specific about a deck with fewer than 3 cards; the model removes what that deck holds, a count no example fixes.
- TurnRules.CardCountOverThree is taken to mean "both decks hold at least 3 cards", the complement of `card_count_under_three?`; the examples only fix two 4-card decks (true) and an emptied deck (false), so whether exactly 3 cards suffice is a design choice of this model. Classification does not depend on this reading: the war depth rule is the separate predicate `BothHoldThree`.
- TurnRules.Classify: a tie at index 0 against a deck of fewer than 3 cards is classified as a war; no example classifies such decks (the short-deck examples call `war_turn_winner` directly), so this follows the rule that index 2 is never read on a short deck.
- TurnRules.SendTwo: putting the first player's top card before the second player's in the spoils is a choice of this model; the examples only observe the number of spoils and their reset to empty.
- TurnRules.SendSix: putting the first player's three cards before the second player's three in the spoils is a choice of this model, for the same reason; `TurnRules.DecidedTurn` carries that order into the winner's deck.
- Two seats sharing one deck object (aliasing) is not modelled: the `Turn` constructor requires the two players' decks to be different objects, which every turn in the examples satisfies.
- Awarding to no one is a no-op here (`Award(t, NoWinner) == t`); in Ruby the string `'No Winner'` is not a player, and no example awards it.
