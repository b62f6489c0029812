/** Whole games played through the rules, for any cards of the given ranks. */
module Scenarios {
  import opened Scoring
  import opened Hands
  import opened Rules

  /** A start whose first two cards do not make 21 leaves the player to act, with the
      score of those two cards and the dealer showing the third. */
  lemma StartWithout21(cards: seq<Card>, player: int, dealer: int)
    requires |cards| == 4 && FaceUp(cards)
    requires Score([cards[0].rank, cards[1].rank]) == player != 21
    requires Score([cards[2].rank]) == dealer
    ensures Valid(StartGame(Initial, cards)) && PlayerMayAct(StartGame(Initial, cards))
    ensures StartGame(Initial, cards).playerCards == [cards[0], cards[1]]
    ensures StartGame(Initial, cards).dealerCards == [cards[1].(hidden := true), cards[2]]
    ensures StartGame(Initial, cards).playerSum == player
    ensures StartGame(Initial, cards).dealerSum == dealer
  {
    assert Ranks([cards[0], cards[1]]) == [cards[0].rank, cards[1].rank];
    TwoCards(cards[0].rank, cards[1].rank);
    StartGameStep(Initial, cards);
    HoleCardUnscored(cards[1], cards[2]);
  }

  /** A dealer draw leaves a valid state whose dealer score is that of the whole,
      face-up, dealer hand, and which stays open exactly while the dealer is behind. */
  lemma DrawScores(t: Table, card: Card)
    requires Valid(t) && Enabled(t, DealerTimer(card))
    ensures Valid(DealerDraw(t, card))
    ensures DealerDraw(t, card).dealerSum == HandScore(t.dealerCards + [card])
    ensures DealerDraw(t, card).dealerCards == t.dealerCards + [card]
    ensures DealerDraw(t, card).playerSum == t.playerSum
    ensures !DealerDraw(t, card).gameOver <==> DealerDraw(t, card).dealerSum < t.playerSum
    ensures var r := DealerDraw(t, card);
            r.gameOver ==> (!r.autoPlay && !r.drawPending &&
              r.outcome == Some(if r.dealerSum == r.playerSum then Tie
                                else if r.dealerSum > 21 then Win else Lose))
  {
    DealerDrawStep(t, card);
    RevealedOfFaceUp(t.dealerCards + [card]);
    OpenWhileDealerBehind(DealerDraw(t, card));
  }

  /** A 6 drawn onto a 9 and an 8 makes 23. */
  lemma SixOnNineEight(hand: seq<Card>, c: Card)
    requires Ranks(hand) == [Pip(9), Pip(8)] && c.rank == Pip(6)
    ensures HandScore(hand + [c]) == 23
  {
    DrawnRanks(hand, c);
    assert Ranks(hand) + [c.rank] == [Pip(9), Pip(8), Pip(6)];
    assert Score([Pip(9), Pip(8), Pip(6)]) == 23;
  }

  /** Hitting a 6 on a 9 and an 8: 23 loses at once; the dealer's hand is untouched
      and the dealer never plays. */
  lemma HitTo23(t0: Table, c: Card)
    requires Valid(t0) && PlayerMayAct(t0) && !c.hidden && c.rank == Pip(6)
    requires Ranks(t0.playerCards) == [Pip(9), Pip(8)]
    ensures var t1 := Hit(t0, c);
            t1.playerSum == 23 && t1.gameOver && t1.outcome == Some(Lose) &&
            !t1.passedTurn && !t1.autoPlay && !t1.drawPending &&
            t1.dealerCards == t0.dealerCards
  {
    SixOnNineEight(t0.playerCards, c);
    HitStep(t0, c);
  }

  /** A start with a 9 and an 8 leaves the player to act on 17. */
  lemma StartOn17(cards: seq<Card>)
    requires |cards| == 4 && FaceUp(cards)
    requires cards[0].rank == Pip(9) && cards[1].rank == Pip(8)
    ensures var t0 := StartGame(Initial, cards);
            Valid(t0) && PlayerMayAct(t0) && Ranks(t0.playerCards) == [Pip(9), Pip(8)]
  {
    assert Score([Pip(9), Pip(8)]) == 17;
    StartWithout21(cards, 17, Score([cards[2].rank]));
    assert Ranks(StartGame(Initial, cards).playerCards) == [Pip(9), Pip(8)];
  }

  /** A start with a 9 and an 8 to the player (17), then a hit with a 6: 23 loses at
      once; the dealer's card stays hidden and the dealer never plays. */
  lemma BustLosesAtOnce(cards: seq<Card>, c: Card)
    requires |cards| == 4 && FaceUp(cards) && !c.hidden
    requires cards[0].rank == Pip(9) && cards[1].rank == Pip(8) && c.rank == Pip(6)
    ensures PlayerMayAct(StartGame(Initial, cards))
    ensures var t1 := Hit(StartGame(Initial, cards), c);
            t1.playerSum == 23 && t1.gameOver && t1.outcome == Some(Lose) &&
            !t1.passedTurn && !t1.autoPlay && !t1.drawPending &&
            t1.dealerCards == StartGame(Initial, cards).dealerCards
  {
    StartOn17(cards);
    HitTo23(StartGame(Initial, cards), c);
  }

  /** A 10 and a 2, turned up, score 12. */
  lemma TenAndTwoTurnedUp(hand: seq<Card>)
    requires Ranks(hand) == [Pip(10), Pip(2)]
    ensures Ranks(Reveal(hand)) == [Pip(10), Pip(2)] && HandScore(Reveal(hand)) == 12
  {
    RevealKeepsRanks(hand);
    assert Score([Pip(10), Pip(2)]) == 12;
  }

  /** The player stands on 18 with the dealer showing a 2 over a hidden 10: the
      dealer's face-up score becomes 12 and a draw is scheduled. */
  lemma StandOn18(t0: Table)
    requires Valid(t0) && PlayerMayAct(t0) && t0.playerSum == 18
    requires Ranks(t0.dealerCards) == [Pip(10), Pip(2)]
    ensures Valid(Stand(t0))
    ensures Stand(t0).dealerSum == 12 && Stand(t0).drawPending && Stand(t0).playerSum == 18
    ensures Ranks(Stand(t0).dealerCards) == [Pip(10), Pip(2)]
  {
    StandStep(t0);
    TenAndTwoTurnedUp(t0.dealerCards);
    OpenWhileDealerBehind(Stand(t0));
  }

  /** A 5 drawn onto a 10 and a 2 makes 17. */
  lemma FiveOnTenTwo(hand: seq<Card>, c: Card)
    requires Ranks(hand) == [Pip(10), Pip(2)] && c.rank == Pip(5)
    ensures Ranks(hand + [c]) == [Pip(10), Pip(2), Pip(5)]
    ensures HandScore(hand + [c]) == 17
  {
    DrawnRanks(hand, c);
    assert Ranks(hand) + [c.rank] == [Pip(10), Pip(2), Pip(5)];
    DealerHandExamples();
  }

  /** A 2 drawn onto 10, 2, 5 makes 19; a 5 makes 22. */
  lemma TwoOrFiveOnSeventeen(hand: seq<Card>, c: Card)
    requires Ranks(hand) == [Pip(10), Pip(2), Pip(5)]
    requires c.rank == Pip(2) || c.rank == Pip(5)
    ensures HandScore(hand + [c]) == if c.rank == Pip(2) then 19 else 22
  {
    DrawnRanks(hand, c);
    assert Ranks(hand) + [c.rank] == [Pip(10), Pip(2), Pip(5), c.rank];
    DealerHandExamples();
  }
  /** The dealer at 12 against 18 draws a 5: 17, still behind, so it plays on. */
  lemma DrawTo17(t1: Table, c1: Card)
    requires Valid(t1) && t1.drawPending && t1.playerSum == 18 && t1.dealerSum == 12
    requires Ranks(t1.dealerCards) == [Pip(10), Pip(2)] && !c1.hidden && c1.rank == Pip(5)
    ensures Valid(DealerDraw(t1, c1))
    ensures DealerDraw(t1, c1).dealerSum == 17 && DealerDraw(t1, c1).drawPending
    ensures !DealerDraw(t1, c1).gameOver && DealerDraw(t1, c1).playerSum == 18
    ensures Ranks(DealerDraw(t1, c1).dealerCards) == [Pip(10), Pip(2), Pip(5)]
  {
    FiveOnTenTwo(t1.dealerCards, c1);
    DrawScores(t1, c1);
  }

  /** The dealer at 17 against 18 draws a 2 (19: the player loses) or a 5 (22: the
      dealer busts and the player wins). */
  lemma DrawToDecide(t2: Table, c2: Card)
    requires Valid(t2) && t2.drawPending && t2.playerSum == 18 && t2.dealerSum == 17
    requires Ranks(t2.dealerCards) == [Pip(10), Pip(2), Pip(5)] && !c2.hidden
    requires c2.rank == Pip(2) || c2.rank == Pip(5)
    ensures var t3 := DealerDraw(t2, c2);
            t3.gameOver && !t3.autoPlay && !t3.drawPending &&
            (c2.rank == Pip(2) ==> t3.dealerSum == 19 && t3.outcome == Some(Lose)) &&
            (c2.rank == Pip(5) ==> t3.dealerSum == 22 && t3.outcome == Some(Win))
  {
    TwoOrFiveOnSeventeen(t2.dealerCards, c2);
    DrawScores(t2, c2);
  }

  /** The dealer's turn against a player standing on 18, with a 2 showing over a
      hidden 10: its score goes 12, then 17 after a 5 (it plays on at both), then 19
      or 22. */
  lemma DealerPlaysOnThenDecides(t0: Table, c1: Card, c2: Card)
    requires Valid(t0) && PlayerMayAct(t0) && t0.playerSum == 18
    requires Ranks(t0.dealerCards) == [Pip(10), Pip(2)]
    requires !c1.hidden && !c2.hidden
    requires c1.rank == Pip(5) && (c2.rank == Pip(2) || c2.rank == Pip(5))
    ensures Stand(t0).dealerSum == 12
    ensures DealerDraw(Stand(t0), c1).dealerSum == 17
    ensures var t3 := DealerDraw(DealerDraw(Stand(t0), c1), c2);
            t3.gameOver &&
            (c2.rank == Pip(2) ==> t3.dealerSum == 19 && t3.outcome == Some(Lose)) &&
            (c2.rank == Pip(5) ==> t3.dealerSum == 22 && t3.outcome == Some(Win))
  {
    StandOn18(t0);
    var t1 := Stand(t0);
    DrawTo17(t1, c1);
    DrawToDecide(DealerDraw(t1, c1), c2);
  }

  /** A start with an 8 and a 10 to the player and a 2 to the dealer leaves the player
      on 18, with the dealer's hand a hidden 10 over the 2. */
  lemma StartOn18(cards: seq<Card>)
    requires |cards| == 4 && FaceUp(cards)
    requires cards[0].rank == Pip(8) && cards[1].rank == Pip(10) && cards[2].rank == Pip(2)
    ensures var t0 := StartGame(Initial, cards);
            Valid(t0) && PlayerMayAct(t0) && t0.playerSum == 18 &&
            Ranks(t0.dealerCards) == [Pip(10), Pip(2)]
  {
    assert Score([Pip(8), Pip(10)]) == 18 && Score([Pip(2)]) == 2;
    StartWithout21(cards, 18, 2);
    var t0 := StartGame(Initial, cards);
    assert Ranks(t0.dealerCards) == [Pip(10), Pip(2)];
  }

  /** An ace and a king make 21; the same king turned up next to a 7 makes 17. */
  lemma NaturalScores(cards: seq<Card>)
    requires |cards| == 4
    requires cards[0].rank == Ace && cards[1].rank == King && cards[2].rank == Pip(7)
    ensures HandScore([cards[0], cards[1]]) == 21
    ensures HandScore([cards[1], cards[2]]) == 17
  {
    assert Ranks([cards[0], cards[1]]) == [Ace, King];
    assert Ranks([cards[1], cards[2]]) == [King, Pip(7)];
    assert Score([Ace, King]) == 21 && Score([King, Pip(7)]) == 17;
  }

  /** An ace and a king dealt to the player make 21: the turn passes at once, without a
      press of Stand; the dealer's hidden card (a copy of that same king, next to a 7)
      is turned up, the dealer is behind at 17 and a dealer draw is scheduled. */
  lemma NaturalStandsAtOnce(cards: seq<Card>)
    requires |cards| == 4 && FaceUp(cards)
    requires cards[0].rank == Ace && cards[1].rank == King && cards[2].rank == Pip(7)
    ensures var t0 := StartGame(Initial, cards);
            t0.playerSum == 21 && t0.passedTurn && !PlayerMayAct(t0) &&
            FaceUp(t0.dealerCards) && t0.dealerSum == 17 && t0.drawPending
  {
    NaturalScores(cards);
    StartGameStep(Initial, cards);
    var t0 := StartGame(Initial, cards);
    RevealedOfFaceUp(t0.dealerCards);
    OpenWhileDealerBehind(t0);
  }
}
