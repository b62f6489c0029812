/** Cards as the table holds them, and the two hand operations the game uses on the
    dealer's hand: turning every card face up, and keeping only the face-up cards. */
module Hands {
  import opened Scoring

  /** A drawn card: its identifier (`code`), its rank (`value`) and whether it is shown
      face down. The deck service never sets `hidden`; only the dealer's first card is
      dealt hidden. The card image is presentation and is not modelled. */
  datatype Card = Card(code: string, rank: Rank, hidden: bool)

  predicate FaceUp(hand: seq<Card>)
  {
    forall i :: 0 <= i < |hand| ==> !hand[i].hidden
  }

  /** The ranks of a hand, in hand order. */
  function Ranks(hand: seq<Card>): (rs: seq<Rank>)
    ensures |rs| == |hand|
    ensures forall i :: 0 <= i < |hand| ==> rs[i] == hand[i].rank
  {
    if hand == [] then [] else [hand[0].rank] + Ranks(hand[1..])
  }

  /** The score of a hand of cards. */
  function HandScore(hand: seq<Card>): int
  {
    Score(Ranks(hand))
  }

  /** Every card turned face up, nothing else changed, order and length kept. */
  function Reveal(hand: seq<Card>): (r: seq<Card>)
    ensures |r| == |hand|
    ensures forall i :: 0 <= i < |hand| ==> r[i] == hand[i].(hidden := false)
  {
    if hand == [] then [] else [hand[0].(hidden := false)] + Reveal(hand[1..])
  }

  /** The face-up cards of a hand, in hand order: a card is kept exactly when it is
      in the hand and not hidden. */
  function Revealed(hand: seq<Card>): (r: seq<Card>)
    ensures forall c :: c in r <==> c in hand && !c.hidden
    ensures |r| <= |hand|
  {
    if hand == [] then []
    else if hand[0].hidden then Revealed(hand[1..])
    else [hand[0]] + Revealed(hand[1..])
  }

  /** Filtering a face-up hand keeps all of it. */
  lemma {:induction false} RevealedOfFaceUp(hand: seq<Card>)
    requires FaceUp(hand)
    ensures Revealed(hand) == hand
  {
    if hand != [] {
      RevealedOfFaceUp(hand[1..]);
    }
  }

  /** Filtering distributes over concatenation. */
  lemma {:induction false} RevealedAppend(a: seq<Card>, b: seq<Card>)
    ensures Revealed(a + b) == Revealed(a) + Revealed(b)
  {
    if a == [] {
      assert a + b == b;
    } else {
      assert (a + b)[1..] == a[1..] + b;
      RevealedAppend(a[1..], b);
    }
  }

  /** Drawing a card scores the old ranks followed by the new card's rank. */
  lemma DrawnRanks(hand: seq<Card>, c: Card)
    ensures Ranks(hand + [c]) == Ranks(hand) + [c.rank]
    ensures HandScore(hand + [c]) == Score(Ranks(hand) + [c.rank])
  {
  }

  /** Revealing a hand turns every card up and keeps every rank in place. */
  lemma RevealKeepsRanks(hand: seq<Card>)
    ensures FaceUp(Reveal(hand))
    ensures Ranks(Reveal(hand)) == Ranks(hand)
    ensures Revealed(Reveal(hand)) == Reveal(hand)
  {
    RevealedOfFaceUp(Reveal(hand));
  }
}
