/** Two places where the table does not do what a Blackjack table evidently should.
    Each is shown on the rules as written, with an input that exhibits it, and then
    corrected, with the intended property proved of the correction. */
module Findings {
  import opened Scoring
  import opened Hands
  import opened Rules
  import opened Scenarios

  // The deal: the second card is dealt twice, the fourth never.

  /** Every card on the table, the dealer's turned up. */
  function OnTable(t: Table): seq<Card>
  {
    t.playerCards + Reveal(t.dealerCards)
  }

  /** As written: after the start, the card under the dealer's face-down card is the
      player's second card, and the fourth card drawn is on the table nowhere. */
  lemma StartDealsSecondCardTwice(cards: seq<Card>)
    requires |cards| == 4 && FaceUp(cards)
    ensures OnTable(StartGame(Initial, cards)) == [cards[0], cards[1], cards[1], cards[2]]
  {
    StartGameStep(Initial, cards);
    assert Reveal(StartGame(Initial, cards).dealerCards) == [cards[1], cards[2]];
  }

  /** So whenever the fourth card is not the second one, the table does not hold the
      four cards that were drawn. */
  lemma SecondCardTwiceIsNotTheDraw(cards: seq<Card>)
    requires |cards| == 4 && cards[3] != cards[1]
    ensures multiset([cards[0], cards[1], cards[1], cards[2]]) != multiset(cards)
  {
    assert cards == [cards[0], cards[1], cards[2], cards[3]];
    var m, n := multiset([cards[0], cards[1], cards[1], cards[2]]), multiset(cards);
    var k := if cards[0] == cards[1] then 1 else 0;
    var l := if cards[2] == cards[1] then 1 else 0;
    assert m[cards[1]] == k + 2 + l;
    assert n[cards[1]] == k + 1 + l;
  }

  /** Corrected: the deal alternates, player first: the player gets the first and
      third cards, the dealer the second (face down) and the fourth. */
  function DealEachOnce(t: Table, cards: seq<Card>): Table
    requires |cards| == 4
  {
    t.(gameStarted := true,
       playerCards := t.playerCards + [cards[0], cards[2]],
       dealerCards := t.dealerCards + [cards[1].(hidden := true), cards[3]])
  }

  /** Corrected `startGame`: the alternating deal, then both hand effects. */
  function StartGameDealingEachOnce(t: Table, cards: seq<Card>): Table
    requires |cards| == 4
  {
    DealerCardsEffect(PlayerCardsEffect(DealEachOnce(t, cards)))
  }

  /** The corrected start keeps the invariant; the table then holds the four cards
      drawn, each once, in dealing order; and a natural 21 hands the turn straight to a
      dealer that decides or draws. */
  lemma StartGameDealingEachOnceStep(t: Table, cards: seq<Card>)
    requires Valid(t) && Enabled(t, StartButton(cards))
    ensures Valid(StartGameDealingEachOnce(t, cards))
    ensures OnTable(StartGameDealingEachOnce(t, cards)) == [cards[0], cards[2], cards[1], cards[3]]
    ensures StartGameDealingEachOnce(t, cards).passedTurn <==> HandScore([cards[0], cards[2]]) == 21
    ensures StartGameDealingEachOnce(t, cards).passedTurn ==>
              StartGameDealingEachOnce(t, cards).gameOver || StartGameDealingEachOnce(t, cards).drawPending
  {
    CorrectedStartOpens(t, cards);
    OpeningStep(cards[0], cards[2], cards[1], cards[3]);
    var r := StartGameDealingEachOnce(t, cards);
    assert Reveal(r.dealerCards) == [cards[1], cards[3]] by {
      FaceUpDealtHand(r.dealerCards, cards[1], cards[3]);
    }
  }

  /** The corrected start is an opening deal of the first and third cards to the player
      and the second and fourth to the dealer. */
  lemma CorrectedStartOpens(t: Table, cards: seq<Card>)
    requires Valid(t) && Enabled(t, StartButton(cards))
    ensures StartGameDealingEachOnce(t, cards) ==
              DealerCardsEffect(PlayerCardsEffect(Opened(cards[0], cards[2], cards[1], cards[3])))
  {
    assert DealEachOnce(t, cards) == Opened(cards[0], cards[2], cards[1], cards[3]);
  }

  /** The opening dealer hand, face down or already turned, turns up to the two cards. */
  lemma FaceUpDealtHand(dealer: seq<Card>, h: Card, v: Card)
    requires !h.hidden && !v.hidden
    requires dealer == [h, v] || dealer == [h.(hidden := true), v]
    ensures Reveal(dealer) == [h, v]
  {
  }

  /** Dealing in that order puts every drawn card on the table exactly once. */
  lemma EachOnceIsTheDraw(cards: seq<Card>)
    requires |cards| == 4
    ensures multiset([cards[0], cards[2], cards[1], cards[3]]) == multiset(cards)
  {
    assert cards == [cards[0], cards[1], cards[2], cards[3]];
  }

  // The dealer's draw: a score that does not change stalls the game.

  /** Started, past the player's turn, not over, and no dealer draw scheduled. */
  predicate Stuck(t: Table)
  {
    t.gameStarted && t.passedTurn && !t.gameOver && !t.drawPending
  }

  /** In a stuck state no button is shown and no timer will fire. */
  lemma StuckAllowsNothing(t: Table, a: Action)
    requires Stuck(t)
    ensures !Enabled(t, a)
  {
  }

  /** As written: a dealer draw that leaves the face-up score where it was (an ace
      going from 11 to 1 absorbs the new card) never reaches the resolution effect,
      which runs only when the score changes: no outcome, and no further draw. */
  lemma UnchangedDrawStalls(t: Table, card: Card)
    requires Valid(t) && Enabled(t, DealerTimer(card))
    requires HandScore(t.dealerCards + [card]) == t.dealerSum
    ensures Valid(DealerDraw(t, card)) && Stuck(DealerDraw(t, card))
  {
    DealerDrawStep(t, card);
  }

  /** The scores met on the way to the stall. */
  lemma StallHandExamples()
    ensures Score([Ace, Pip(5)]) == 16 && Score([Ace, Pip(5), Pip(2)]) == 18
    ensures Score([Pip(5), Ace]) == 16 && Score([Pip(5), Ace, King]) == 16
  {
  }

  /** A start with an ace and a 5 to the player: 16, the player's turn, and under the
      dealer's face-down card the same 5, next to an ace. */
  lemma StallStart(cards: seq<Card>)
    requires |cards| == 4 && FaceUp(cards)
    requires cards[0].rank == Ace && cards[1].rank == Pip(5) && cards[2].rank == Ace
    ensures var t0 := StartGame(Initial, cards);
            Valid(t0) && PlayerMayAct(t0) &&
            Ranks(t0.playerCards) == [Ace, Pip(5)] && Ranks(t0.dealerCards) == [Pip(5), Ace]
  {
    StallHandExamples();
    StartWithout21(cards, 16, Score([Ace]));
    var t0 := StartGame(Initial, cards);
    assert Ranks(t0.playerCards) == [Ace, Pip(5)];
    assert Ranks(t0.dealerCards) == [Pip(5), Ace];
  }

  lemma TwoOnAceFive(hand: seq<Card>, c: Card)
    requires Ranks(hand) == [Ace, Pip(5)] && c.rank == Pip(2)
    ensures HandScore(hand + [c]) == 18
  {
    DrawnRanks(hand, c);
    assert Ranks(hand) + [c.rank] == [Ace, Pip(5), Pip(2)];
    StallHandExamples();
  }

  lemma KingOnFiveAce(hand: seq<Card>, c: Card)
    requires Ranks(hand) == [Pip(5), Ace] && c.rank == King
    ensures HandScore(hand + [c]) == 16
  {
    DrawnRanks(hand, c);
    assert Ranks(hand) + [c.rank] == [Pip(5), Ace, King];
    StallHandExamples();
  }

  /** The player hits a 2: 18, still the player's turn, the dealer's hand untouched. */
  lemma StallHit(t0: Table, c: Card)
    requires Valid(t0) && PlayerMayAct(t0) && !c.hidden && c.rank == Pip(2)
    requires Ranks(t0.playerCards) == [Ace, Pip(5)]
    ensures var t1 := Hit(t0, c);
            Valid(t1) && PlayerMayAct(t1) && t1.playerSum == 18 && t1.dealerCards == t0.dealerCards
  {
    TwoOnAceFive(t0.playerCards, c);
    HitStep(t0, c);
  }

  /** The player stands on 18; the dealer turns up 5 and ace, 16, and plays on. */
  lemma StallStand(t1: Table)
    requires Valid(t1) && PlayerMayAct(t1) && t1.playerSum == 18
    requires Ranks(t1.dealerCards) == [Pip(5), Ace]
    ensures var t2 := Stand(t1);
            Valid(t2) && t2.drawPending && t2.dealerSum == 16 &&
            Ranks(t2.dealerCards) == [Pip(5), Ace]
  {
    StandStep(t1);
    RevealKeepsRanks(t1.dealerCards);
    StallHandExamples();
    OpenWhileDealerBehind(Stand(t1));
  }

  /** The dealer draws a king: 26, so the ace counts 1, and the score stays 16. */
  lemma StallDraw(t2: Table, c: Card)
    requires Valid(t2) && t2.drawPending && t2.dealerSum == 16 && !c.hidden && c.rank == King
    requires Ranks(t2.dealerCards) == [Pip(5), Ace]
    ensures Stuck(DealerDraw(t2, c))
  {
    KingOnFiveAce(t2.dealerCards, c);
    UnchangedDrawStalls(t2, c);
  }

  /** A whole game that stalls: the player, on an ace and a 5, hits a 2 and stands on
      18; the dealer shows an ace over the player's 5, turns up 16 and draws a king. */
  lemma DealerStallsOnAceAndKing(cards: seq<Card>, hit: Card, draw: Card)
    requires |cards| == 4 && FaceUp(cards) && !hit.hidden && !draw.hidden
    requires cards[0].rank == Ace && cards[1].rank == Pip(5) && cards[2].rank == Ace
    requires hit.rank == Pip(2) && draw.rank == King
    ensures Stuck(DealerDraw(Stand(Hit(StartGame(Initial, cards), hit)), draw))
  {
    StallStart(cards);
    var t0 := StartGame(Initial, cards);
    StallHit(t0, hit);
    var t1 := Hit(t0, hit);
    StallStand(t1);
    StallDraw(Stand(t1), draw);
  }

  /** Corrected dealer draw: the dealer's score is stored and the resolution effect
      runs after every dealer draw, whether or not the score changed. */
  function DealerDrawResolving(t: Table, card: Card): Table
  {
    var u := t.(dealerCards := t.dealerCards + [card], drawPending := false);
    DealerSumEffect(u.(dealerSum := HandScore(Revealed(u.dealerCards))))
  }

  /** The corrected draw keeps the invariant and always decides: the game ends, or one
      more draw is scheduled; so it never stalls. Where the score changes it is the draw
      as written. */
  lemma DealerDrawResolvingDecides(t: Table, card: Card)
    requires Valid(t) && Enabled(t, DealerTimer(card))
    ensures Valid(DealerDrawResolving(t, card))
    ensures DealerDrawResolving(t, card).gameOver || DealerDrawResolving(t, card).drawPending
    ensures !Stuck(DealerDrawResolving(t, card))
    ensures HandScore(t.dealerCards + [card]) != t.dealerSum ==>
              DealerDrawResolving(t, card) == DealerDraw(t, card)
  {
    var hand := t.dealerCards + [card];
    var u := t.(dealerCards := hand, drawPending := false);
    assert FaceUp(hand);
    RevealedOfFaceUp(hand);
    ScoreBounds(Ranks(hand));
    ResolutionDecides(u.(dealerSum := HandScore(hand)));
  }

  /** The game with both corrections. */
  function ApplyCorrected(t: Table, a: Action): Table
    requires Enabled(t, a)
  {
    match a
    case StartButton(cards) => StartGameDealingEachOnce(t, cards)
    case DealerTimer(card) => DealerDrawResolving(t, card)
    case _ => Apply(t, a)
  }

  /** The corrected game keeps the invariant and no action leads into a stuck state:
      after the stand, the game is over or a dealer draw is scheduled. */
  lemma CorrectedNeverStalls(t: Table, a: Action)
    requires Valid(t) && Enabled(t, a)
    ensures Valid(ApplyCorrected(t, a))
    ensures !Stuck(ApplyCorrected(t, a))
  {
    match a
    case StartButton(cards) => StartGameDealingEachOnceStep(t, cards);
    case HitButton(card) => HitStep(t, card);
    case StandButton => StandStep(t);
    case DealerTimer(card) => DealerDrawResolvingDecides(t, card);
    case RestartButton =>
  }
}
