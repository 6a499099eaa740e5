/** The card and deck model the turn engine relies on. */
module Cards {

  /** A playing card. Only its numeric rank (2..14 in a standard deck, Jack = 11,
      Queen = 12) takes part in any decision; suit and label are not modelled. */
  datatype Card = Card(rank: int)

  /** The first `n` cards of `s`, or all of them when `s` is shorter. */
  function Take(s: seq<Card>, n: nat): (r: seq<Card>)
    ensures |r| == if n <= |s| then n else |s|
    ensures r <= s
  {
    if n <= |s| then s[..n] else s
  }

  /** What is left of `s` once its first `n` cards (or all, when fewer) are gone. */
  function Drop(s: seq<Card>, n: nat): (r: seq<Card>)
    ensures |r| == if n <= |s| then |s| - n else 0
    ensures Take(s, n) + r == s
  {
    if n <= |s| then s[n..] else []
  }

  /** Splitting a deck into its front and its rest loses no card and invents none. */
  lemma TakeDropMultiset(s: seq<Card>, n: nat)
    ensures multiset(Take(s, n)) + multiset(Drop(s, n)) == multiset(s)
  {
    assert Take(s, n) + Drop(s, n) == s;
  }

  /** A player's deck: an ordered sequence of cards whose front is the top of the deck.
      It only ever loses cards at the front and gains them at the back. */
  class Deck {
    var cards: seq<Card>

    constructor (cards: seq<Card>)
      ensures this.cards == cards
    {
      this.cards := cards;
    }

    /** Removes and returns the top `n` cards (all of them when the deck is shorter). */
    method RemoveFront(n: nat) returns (taken: seq<Card>)
      modifies this
      ensures taken + cards == old(cards)
      ensures taken == Take(old(cards), n) && cards == Drop(old(cards), n)
    {
      taken := Take(cards, n);
      cards := Drop(cards, n);
    }

    /** Puts `more` at the bottom of the deck, in order. */
    method Append(more: seq<Card>)
      modifies this
      ensures cards == old(cards) + more
    {
      cards := cards + more;
    }
  }
}
