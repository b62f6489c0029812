/** The game's turn and outcome rules, as pure transitions on one record of state.
    Each of the component's functions (`startGame`, `hit`, `stand`, `finishGame`, the
    dealer's timed draw) is followed, synchronously and in a fixed order, by the effects
    that its state updates trigger: the player-hand effect, then the dealer-hand effect,
    then, only if the dealer's score changed, the resolution effect. */
module Rules {
  import opened Scoring
  import opened Hands

  datatype Option<T> = None | Some(value: T)

  /** How a finished game ended. The game shows a message picked at random from the
      pool that belongs to the outcome; the pick is not modelled. */
  datatype Outcome = Win | Tie | Lose

  /** The component's state. `drawPending` stands for the one-second timer that a
      dealer draw waits on: true from when it is scheduled until it fires. */
  datatype Table = Table(
    playerCards: seq<Card>, playerSum: int,
    dealerCards: seq<Card>, dealerSum: int,
    gameStarted: bool, passedTurn: bool, gameOver: bool, autoPlay: bool,
    outcome: Option<Outcome>,
    drawPending: bool)

  const Initial: Table := Table([], 0, [], 0, false, false, false, false, None, false)

  /** `finishGame`: the player has lost. */
  function FinishGame(t: Table): Table
  {
    t.(gameOver := true, outcome := Some(Lose))
  }

  function Resolve(t: Table, o: Outcome): Table
  {
    t.(autoPlay := false, gameOver := true, outcome := Some(o))
  }

  /** The resolution effect, run whenever `dealerSum` has changed: tie, loss, win, or
      (while the dealer plays on its own) schedule one more dealer draw. */
  function DealerSumEffect(t: Table): Table
  {
    if t.dealerSum == 0 then t
    else if t.dealerSum == t.playerSum && t.passedTurn then Resolve(t, Tie)
    else if t.dealerSum > t.playerSum && t.dealerSum <= 21 && t.passedTurn then Resolve(t, Lose)
    else if t.dealerSum > 21 && t.passedTurn then Resolve(t, Win)
    else if t.autoPlay then t.(drawPending := true)
    else t
  }

  /** The dealer-hand effect: the dealer's score counts the face-up cards only; the
      resolution effect follows only when that score differs from the stored one. */
  function DealerCardsEffect(t: Table): Table
  {
    if t.dealerCards == [] then t
    else
      var s := HandScore(Revealed(t.dealerCards));
      if s == t.dealerSum then t else DealerSumEffect(t.(dealerSum := s))
  }

  /** `stand`: the turn passes, every dealer card is turned up, the dealer starts to
      play on its own; the dealer hand changed, so its effect follows. */
  function Stand(t: Table): Table
  {
    DealerCardsEffect(t.(passedTurn := true, dealerCards := Reveal(t.dealerCards), autoPlay := true))
  }

  /** The player-hand effect: store the player's score; 21 stands, over 21 loses. */
  function PlayerCardsEffect(t: Table): Table
  {
    if t.playerCards == [] then t
    else
      var s := HandScore(t.playerCards);
      var t1 := t.(playerSum := s);
      if s == 21 then Stand(t1)
      else if s > 21 then FinishGame(t1)
      else t1
  }

  /** `hit`: one drawn card goes to the end of the player's hand. */
  function Hit(t: Table, card: Card): Table
  {
    PlayerCardsEffect(t.(playerCards := t.playerCards + [card]))
  }

  /** The state update of `startGame` for four drawn cards: the player gets the first
      two; the dealer gets a hidden copy of the second, then the third; the fourth is
      not used. */
  function Deal(t: Table, cards: seq<Card>): Table
    requires |cards| == 4
  {
    t.(gameStarted := true,
       playerCards := t.playerCards + [cards[0], cards[1]],
       dealerCards := t.dealerCards + [cards[1].(hidden := true), cards[2]])
  }

  /** `startGame`, then both hand effects (player first). */
  function StartGame(t: Table, cards: seq<Card>): Table
    requires |cards| == 4
  {
    DealerCardsEffect(PlayerCardsEffect(Deal(t, cards)))
  }

  /** The dealer's timed draw firing: one card to the end of the dealer's hand. */
  function DealerDraw(t: Table, card: Card): Table
  {
    DealerCardsEffect(t.(dealerCards := t.dealerCards + [card], drawPending := false))
  }

  /** What a user or the timer can do. A button can be pressed only while it is shown:
      Start before the game starts, Hit and Stand during the player's turn, Restart once
      the game is over; the timer fires only when a dealer draw is scheduled. Drawn
      cards come face up from the deck service. */
  datatype Action =
    | StartButton(cards: seq<Card>)
    | HitButton(card: Card)
    | StandButton
    | DealerTimer(card: Card)
    | RestartButton

  predicate PlayerMayAct(t: Table)
  {
    t.gameStarted && !t.passedTurn && !t.gameOver
  }

  predicate Enabled(t: Table, a: Action)
  {
    match a
    case StartButton(cards) => !t.gameStarted && |cards| == 4 && FaceUp(cards)
    case HitButton(card) => PlayerMayAct(t) && !card.hidden
    case StandButton => PlayerMayAct(t)
    case DealerTimer(card) => t.drawPending && !card.hidden
    case RestartButton => t.gameOver
  }

  /** The restart reloads the page: the state is the initial one again. */
  function Apply(t: Table, a: Action): Table
    requires Enabled(t, a)
  {
    match a
    case StartButton(cards) => StartGame(t, cards)
    case HitButton(card) => Hit(t, card)
    case StandButton => Stand(t)
    case DealerTimer(card) => DealerDraw(t, card)
    case RestartButton => Initial
  }

  /** Before the stand: two dealer cards, the first face down, the second face up. */
  predicate HoleCardDown(dealer: seq<Card>)
  {
    |dealer| == 2 && dealer[0].hidden && !dealer[1].hidden
  }

  /** A recorded outcome agrees with the final scores. */
  predicate Justified(t: Table)
  {
    match t.outcome
    case None => false
    case Some(Tie) => t.dealerSum == t.playerSum
    case Some(Lose) => t.playerSum < t.dealerSum <= 21
    case Some(Win) => t.dealerSum > 21
  }

  /** The invariant of every state the game can reach: both scores track their hands
      (the dealer's over face-up cards only); before the stand the dealer's first card is
      down and the player is under 21, or over it and lost; after the stand every dealer
      card is up, the player is at most 21, and either the dealer is still behind and
      playing on, or the outcome agrees with the scores. */
  predicate Valid(t: Table)
  {
    if !t.gameStarted then t == Initial
    else
      |t.playerCards| >= 2 && |t.dealerCards| >= 2 &&
      t.playerSum == HandScore(t.playerCards) &&
      t.dealerSum == HandScore(Revealed(t.dealerCards)) &&
      (t.gameOver <==> t.outcome != None) &&
      if !t.passedTurn then
        HoleCardDown(t.dealerCards) && !t.autoPlay && !t.drawPending &&
        if t.gameOver then t.playerSum > 21 && t.outcome == Some(Lose) else t.playerSum < 21
      else
        FaceUp(t.dealerCards) && t.playerSum <= 21 &&
        if t.gameOver then !t.autoPlay && !t.drawPending && Justified(t)
        else t.autoPlay && t.dealerSum < t.playerSum
  }

  /** The player's turn as the stand finds it, whether pressed or forced by a 21: the
      dealer's score may not have been computed yet (it is 0 right after the deal). */
  predicate ReadyToStand(t: Table)
  {
    t.gameStarted && !t.passedTurn && !t.gameOver && t.outcome == None &&
    !t.autoPlay && !t.drawPending &&
    |t.playerCards| >= 2 && t.playerSum == HandScore(t.playerCards) && t.playerSum <= 21 &&
    HoleCardDown(t.dealerCards) &&
    (t.dealerSum == 0 || t.dealerSum == HandScore(Revealed(t.dealerCards)))
  }

  /** A stand never leaves the game waiting: turning the hidden card up always changes
      the dealer's score, so the resolution effect runs and either ends the game or
      schedules a dealer draw. */
  lemma StandDecides(t: Table)
    requires ReadyToStand(t)
    ensures Valid(Stand(t))
    ensures Stand(t).passedTurn
    ensures Stand(t).playerCards == t.playerCards && Stand(t).playerSum == t.playerSum
    ensures Stand(t).dealerCards == Reveal(t.dealerCards)
    ensures Stand(t).dealerSum == HandScore(Reveal(t.dealerCards)) > t.dealerSum
    ensures Stand(t).gameOver || Stand(t).drawPending
  {
    var h, v := t.dealerCards[0], t.dealerCards[1];
    assert t.dealerCards == [h, v];
    assert t.dealerCards[1..] == [v];
    assert Revealed([v]) == [v] + Revealed([]);
    assert Revealed(t.dealerCards) == [v];
    assert Ranks([v]) == [v.rank];
    var up := Reveal(t.dealerCards);
    RevealKeepsRanks(t.dealerCards);
    assert Ranks(up) == [h.rank, v.rank];
    TwoCards(h.rank, v.rank);
    ScoreBounds([v.rank]);
    var r := t.(passedTurn := true, dealerCards := up, autoPlay := true, dealerSum := HandScore(up));
    assert Stand(t) == DealerSumEffect(r);
    ResolutionDecides(r);
  }

  /** The start deals from the initial state into the player's turn, or straight into
      the stand when the first two cards make 21. */
  lemma StartGameStep(t: Table, cards: seq<Card>)
    requires Valid(t) && Enabled(t, StartButton(cards))
    ensures Valid(StartGame(t, cards))
    ensures StartGame(t, cards).playerCards == [cards[0], cards[1]]
    ensures StartGame(t, cards).passedTurn <==> HandScore([cards[0], cards[1]]) == 21
    ensures StartGame(t, cards).dealerCards ==
      if StartGame(t, cards).passedTurn then [cards[1], cards[2]] else [cards[1].(hidden := true), cards[2]]
    ensures StartGame(t, cards).passedTurn ==> StartGame(t, cards).gameOver || StartGame(t, cards).drawPending
  {
    assert Deal(t, cards) == Opened(cards[0], cards[1], cards[1], cards[2]);
    OpeningStep(cards[0], cards[1], cards[1], cards[2]);
  }

  /** The state right after an opening deal from the initial state: two cards to the
      player, and to the dealer one card face down, then one face up. */
  function Opened(p0: Card, p1: Card, h: Card, v: Card): Table
  {
    Initial.(gameStarted := true, playerCards := [p0, p1], dealerCards := [h.(hidden := true), v])
  }

  /** Both hand effects after an opening deal of face-up cards leave a valid state:
      the player's turn, or the stand at once when the player's two cards make 21. */
  lemma OpeningStep(p0: Card, p1: Card, h: Card, v: Card)
    requires !p0.hidden && !p1.hidden && !h.hidden && !v.hidden
    ensures var r := DealerCardsEffect(PlayerCardsEffect(Opened(p0, p1, h, v)));
            Valid(r) && r.playerCards == [p0, p1] &&
            (r.passedTurn <==> HandScore([p0, p1]) == 21) &&
            r.dealerCards == (if r.passedTurn then [h, v] else [h.(hidden := true), v]) &&
            (r.passedTurn ==> r.gameOver || r.drawPending)
  {
    if HandScore([p0, p1]) == 21 {
      OpeningNatural(p0, p1, h, v);
    } else {
      OpeningPlain(p0, p1, h, v);
    }
  }

  /** In a started valid state the dealer-hand effect finds the score already stored,
      so it changes nothing. */
  lemma DealerEffectSettled(t: Table)
    requires Valid(t) && t.gameStarted
    ensures DealerCardsEffect(t) == t
  {
  }

  lemma OpeningNatural(p0: Card, p1: Card, h: Card, v: Card)
    requires !p0.hidden && !p1.hidden && !h.hidden && !v.hidden && HandScore([p0, p1]) == 21
    ensures var r := DealerCardsEffect(PlayerCardsEffect(Opened(p0, p1, h, v)));
            Valid(r) && r.passedTurn && r.playerCards == [p0, p1] && r.dealerCards == [h, v] &&
            (r.gameOver || r.drawPending)
  {
    var d := Opened(p0, p1, h, v);
    var t1 := d.(playerSum := 21);
    assert PlayerCardsEffect(d) == Stand(t1);
    assert ReadyToStand(t1) by {
      assert HoleCardDown(d.dealerCards);
    }
    var s := Stand(t1);
    assert Valid(s) && s.passedTurn && s.playerCards == [p0, p1] && s.dealerCards == [h, v] &&
           (s.gameOver || s.drawPending) by {
      StandDecides(t1);
      assert Reveal(d.dealerCards) == [h, v];
    }
    assert DealerCardsEffect(s) == s by {
      DealerEffectSettled(s);
    }
  }

  lemma OpeningPlain(p0: Card, p1: Card, h: Card, v: Card)
    requires !p0.hidden && !p1.hidden && !h.hidden && !v.hidden && HandScore([p0, p1]) != 21
    ensures var r := DealerCardsEffect(PlayerCardsEffect(Opened(p0, p1, h, v)));
            Valid(r) && !r.passedTurn && r.playerCards == [p0, p1] &&
            r.dealerCards == [h.(hidden := true), v]
  {
    var d := Opened(p0, p1, h, v);
    TwoCards(p0.rank, p1.rank);
    assert Ranks([p0, p1]) == [p0.rank, p1.rank];
    var t1 := d.(playerSum := HandScore([p0, p1]));
    assert PlayerCardsEffect(d) == t1;
    HoleCardUnscored(h, v);
    assert DealerCardsEffect(t1) == t1.(dealerSum := HandScore([v]));
  }

  /** While the dealer's first card is down, the dealer's score counts the second card
      alone, and it is never 0. */
  lemma HoleCardUnscored(h: Card, v: Card)
    requires !v.hidden
    ensures Revealed([h.(hidden := true), v]) == [v]
    ensures HandScore([v]) == Score([v.rank]) == Value(v.rank) != 0
  {
    var d := [h.(hidden := true), v];
    assert d[1..] == [v];
    assert Revealed([v]) == [v] + Revealed([]);
    assert Ranks([v]) == [v.rank];
    assert Points([v.rank]) == Value(v.rank);
  }

  /** A hit appends the card to the player's hand; the dealer's hand is untouched
      unless the new score is 21 and the forced stand turns it up. Over 21 the game is
      lost at once, before any dealer play; at 21 the turn passes at once. */
  lemma HitStep(t: Table, card: Card)
    requires Valid(t) && Enabled(t, HitButton(card))
    ensures Valid(Hit(t, card))
    ensures Hit(t, card).playerCards == t.playerCards + [card]
    ensures Hit(t, card).playerSum == HandScore(t.playerCards + [card])
    ensures Hit(t, card).dealerCards == if Hit(t, card).passedTurn then Reveal(t.dealerCards) else t.dealerCards
    ensures HandScore(t.playerCards + [card]) > 21 ==>
      Hit(t, card).gameOver && Hit(t, card).outcome == Some(Lose) &&
      !Hit(t, card).passedTurn && !Hit(t, card).autoPlay && !Hit(t, card).drawPending
    ensures HandScore(t.playerCards + [card]) == 21 ==>
      Hit(t, card).passedTurn && (Hit(t, card).gameOver || Hit(t, card).drawPending)
    ensures HandScore(t.playerCards + [card]) < 21 ==> PlayerMayAct(Hit(t, card))
  {
    var u := t.(playerCards := t.playerCards + [card]);
    var s := HandScore(u.playerCards);
    if s == 21 {
      StandDecides(u.(playerSum := s));
    }
  }

  /** A pressed stand turns the dealer's cards up, keeps the player's hand, and always
      ends in an outcome or a scheduled dealer draw. */
  lemma StandStep(t: Table)
    requires Valid(t) && Enabled(t, StandButton)
    ensures Valid(Stand(t))
    ensures Stand(t).passedTurn && !PlayerMayAct(Stand(t))
    ensures Stand(t).playerCards == t.playerCards && Stand(t).playerSum == t.playerSum
    ensures Stand(t).dealerCards == Reveal(t.dealerCards)
    ensures Stand(t).dealerSum == HandScore(Reveal(t.dealerCards)) > t.dealerSum
    ensures Stand(t).gameOver || Stand(t).drawPending
  {
    StandDecides(t);
  }

  /** The dealer's turn as the resolution effect finds it: the dealer's score has just
      changed to a non-zero value that tracks the face-up dealer hand. */
  predicate DealerScored(r: Table)
  {
    r.gameStarted && r.passedTurn && r.autoPlay && !r.gameOver && r.outcome == None && !r.drawPending &&
    |r.playerCards| >= 2 && |r.dealerCards| >= 2 && FaceUp(r.dealerCards) &&
    r.playerSum == HandScore(r.playerCards) && r.playerSum <= 21 &&
    r.dealerSum == HandScore(Revealed(r.dealerCards)) && r.dealerSum != 0
  }

  /** After the stand the resolution effect always decides: an outcome that agrees
      with the scores, or a scheduled draw while the dealer is still behind. */
  lemma ResolutionDecides(r: Table)
    requires DealerScored(r)
    ensures Valid(DealerSumEffect(r))
    ensures DealerSumEffect(r).gameOver || DealerSumEffect(r).drawPending
    ensures DealerSumEffect(r).playerCards == r.playerCards && DealerSumEffect(r).dealerCards == r.dealerCards
  {
  }

  /** A dealer draw appends the card to the dealer's hand. The game goes on (an outcome
      or another scheduled draw) exactly when the new card changes the dealer's score. */
  lemma DealerDrawStep(t: Table, card: Card)
    requires Valid(t) && Enabled(t, DealerTimer(card))
    ensures Valid(DealerDraw(t, card))
    ensures DealerDraw(t, card).dealerCards == t.dealerCards + [card]
    ensures DealerDraw(t, card).playerCards == t.playerCards
    ensures DealerDraw(t, card).playerSum == t.playerSum && DealerDraw(t, card).passedTurn
    ensures DealerDraw(t, card).gameOver || DealerDraw(t, card).drawPending
      <==> HandScore(t.dealerCards + [card]) != t.dealerSum
  {
    var hand := t.dealerCards + [card];
    var u := t.(dealerCards := hand, drawPending := false);
    assert FaceUp(hand);
    RevealedOfFaceUp(hand);
    var s := HandScore(hand);
    if s == t.dealerSum {
      assert DealerDraw(t, card) == u;
    } else {
      ScoreBounds(Ranks(hand));
      var r := u.(dealerSum := s);
      assert DealerDraw(t, card) == DealerSumEffect(r);
      ResolutionDecides(r);
    }
  }

  /** After the stand the game stays open exactly while the dealer is behind; once it
      is over, the outcome is fixed by the two scores and nothing more is scheduled. */
  lemma OpenWhileDealerBehind(t: Table)
    requires Valid(t) && t.passedTurn
    ensures !t.gameOver <==> t.dealerSum < t.playerSum
    ensures t.drawPending ==> !t.gameOver
    ensures t.gameOver ==> (!t.autoPlay && !t.drawPending &&
      t.outcome == Some(if t.dealerSum == t.playerSum then Tie
                        else if t.dealerSum > 21 then Win else Lose))
  {
    assert t.gameStarted && t.playerSum <= 21;
    if t.gameOver {
      assert Justified(t);
      match t.outcome
      case Some(Tie) =>
      case Some(Win) =>
      case Some(Lose) =>
    }
  }

  /** The invariant holds initially and every enabled action keeps it. */
  lemma ValidPreserved(t: Table, a: Action)
    requires Valid(t) && Enabled(t, a)
    ensures Valid(Apply(t, a))
  {
    match a
    case StartButton(cards) => StartGameStep(t, cards);
    case HitButton(card) => HitStep(t, card);
    case StandButton => StandStep(t);
    case DealerTimer(card) => DealerDrawStep(t, card);
    case RestartButton =>
  }

  /** Once the game is over only the restart is possible: no hit, no stand, no dealer
      draw; in particular a player bust never lets the dealer play. */
  lemma GameOverIsFinal(t: Table, a: Action)
    requires Valid(t) && t.gameOver && Enabled(t, a)
    ensures a == RestartButton
  {
  }

  /** What each outcome means for the scores of a reachable state: a win only on a
      dealer bust, a tie only on equal scores, a loss on a player bust or a dealer ahead
      without busting. */
  lemma OutcomeMeaning(t: Table)
    requires Valid(t)
    ensures t.outcome == Some(Win) ==> t.playerSum <= 21 < t.dealerSum
    ensures t.outcome == Some(Tie) ==> t.dealerSum == t.playerSum <= 21
    ensures t.outcome == Some(Lose) ==> t.playerSum > 21 || t.playerSum < t.dealerSum <= 21
    ensures t.gameStarted && !t.gameOver ==> t.playerSum <= 21
  {
  }

  /** The fourth of the four cards drawn at the start plays no part. */
  lemma FourthCardUnused(t: Table, cards: seq<Card>, other: Card)
    requires |cards| == 4
    ensures StartGame(t, cards[3 := other]) == StartGame(t, cards)
  {
    assert Deal(t, cards[3 := other]) == Deal(t, cards);
  }
}
