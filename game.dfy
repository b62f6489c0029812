/** The `App` component itself: its state hooks are the fields of one object, and its
    functions and effects are methods that update those fields in place. Each method
    is proved to make exactly the transition of the same name in `Rules`; what those
    transitions keep and decide is proved there. */
module App {
  import opened Scoring
  import opened Hands
  import Rules

  class Game {
    var playerCards: seq<Card>
    var playerSum: int
    var dealerCards: seq<Card>
    var dealerSum: int
    var gameStarted: bool
    var passedTurn: bool
    var gameOver: bool
    var autoPlay: bool
    /** Which message pool the shown message was picked from. */
    var outcome: Rules.Option<Rules.Outcome>
    /** A dealer draw is waiting on its timer. */
    var drawPending: bool

    /** The fields as one value. */
    function State(): Rules.Table
      reads this
    {
      Rules.Table(playerCards, playerSum, dealerCards, dealerSum,
                  gameStarted, passedTurn, gameOver, autoPlay, outcome, drawPending)
    }

    /** The component's initial state: no cards, both scores 0, every flag off. */
    constructor ()
      ensures State() == Rules.Initial
    {
      playerCards, playerSum := [], 0;
      dealerCards, dealerSum := [], 0;
      gameStarted, passedTurn, gameOver, autoPlay := false, false, false, false;
      outcome := Rules.None;
      drawPending := false;
    }

    /** `startGame` with the four drawn cards, then the effects the new hands trigger. */
    method StartGame(cards: seq<Card>)
      requires |cards| == 4
      modifies this
      ensures State() == Rules.StartGame(old(State()), cards)
    {
      gameStarted := true;
      var newPlayerCards := playerCards + [cards[0], cards[1]];
      var firstCard := cards[1].(hidden := true);
      var newDealerCards := dealerCards + [firstCard, cards[2]];
      dealerCards := newDealerCards;
      playerCards := newPlayerCards;
      PlayerCardsEffect();
      DealerCardsEffect();
    }

    /** `hit` with the drawn card. */
    method Hit(card: Card)
      modifies this
      ensures State() == Rules.Hit(old(State()), card)
    {
      playerCards := playerCards + [card];
      PlayerCardsEffect();
    }

    /** `stand`: every hidden dealer card is turned up where it lies. */
    method Stand()
      modifies this
      ensures State() == Rules.Stand(old(State()))
    {
      passedTurn := true;
      var newDealerCards := dealerCards;
      var i := 0;
      while i < |newDealerCards|
        invariant 0 <= i <= |newDealerCards| == |dealerCards|
        invariant forall j :: 0 <= j < i ==> newDealerCards[j] == dealerCards[j].(hidden := false)
        invariant forall j :: i <= j < |dealerCards| ==> newDealerCards[j] == dealerCards[j]
      {
        if newDealerCards[i].hidden {
          newDealerCards := newDealerCards[i := newDealerCards[i].(hidden := false)];
        }
        i := i + 1;
      }
      assert newDealerCards == Reveal(dealerCards);
      dealerCards := newDealerCards;
      autoPlay := true;
      DealerCardsEffect();
    }

    /** `finishGame`: the player has lost. */
    method FinishGame()
      modifies this
      ensures State() == Rules.FinishGame(old(State()))
    {
      gameOver := true;
      outcome := Rules.Some(Rules.Lose);
    }

    /** `dealerAutoPlay`: schedule one dealer draw. */
    method DealerAutoPlay()
      modifies this
      ensures State() == old(State()).(drawPending := true)
    {
      drawPending := true;
    }

    /** The scheduled dealer draw firing with the drawn card. */
    method DealerDraw(card: Card)
      modifies this
      ensures State() == Rules.DealerDraw(old(State()), card)
    {
      drawPending := false;
      dealerCards := dealerCards + [card];
      DealerCardsEffect();
    }

    /** `restartGame`: reloading the page starts over. */
    method Restart()
      modifies this
      ensures State() == Rules.Initial
    {
      playerCards, playerSum := [], 0;
      dealerCards, dealerSum := [], 0;
      gameStarted, passedTurn, gameOver, autoPlay := false, false, false, false;
      outcome := Rules.None;
      drawPending := false;
    }

    /** The player-hand effect. */
    method PlayerCardsEffect()
      modifies this
      ensures State() == Rules.PlayerCardsEffect(old(State()))
    {
      if |playerCards| == 0 {
        return;
      }
      var newPlayerSum := HandScore(playerCards);
      playerSum := newPlayerSum;
      if newPlayerSum == 21 {
        Stand();
      }
      if newPlayerSum > 21 {
        FinishGame();
      }
    }

    /** The dealer-hand effect, followed by the resolution effect when the stored
        dealer score changes. */
    method DealerCardsEffect()
      modifies this
      ensures State() == Rules.DealerCardsEffect(old(State()))
    {
      if |dealerCards| == 0 {
        return;
      }
      var revealedCards := Revealed(dealerCards);
      var cardsSum := HandScore(revealedCards);
      var changed := cardsSum != dealerSum;
      dealerSum := cardsSum;
      if changed {
        DealerSumEffect();
      }
    }

    /** The resolution effect. */
    method DealerSumEffect()
      modifies this
      ensures State() == Rules.DealerSumEffect(old(State()))
    {
      if dealerSum == 0 {
        return;
      }
      if dealerSum == playerSum && passedTurn {
        autoPlay, gameOver, outcome := false, true, Rules.Some(Rules.Tie);
        return;
      }
      if dealerSum > playerSum && dealerSum <= 21 && passedTurn {
        autoPlay, gameOver, outcome := false, true, Rules.Some(Rules.Lose);
        return;
      }
      if dealerSum > 21 && passedTurn {
        autoPlay, gameOver, outcome := false, true, Rules.Some(Rules.Win);
        return;
      }
      if autoPlay {
        DealerAutoPlay();
      }
    }
  }
}
