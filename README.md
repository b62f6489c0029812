# Blackjack table, modelled in Dafny

This project models the game logic of the single-page Blackjack table in `src/App.js`.
The player plays against an automatic dealer. Cards come from a remote deck service.
The modelled parts are:

- **Scoring** (`calculateCardValues`). Faces count 10, an ace 11 and a pip card its number. When the sum is over 21 and the hand holds an ace, the first ace alone is re-counted as 1.
- **The game state**. This covers both hands, both scores, and the flags `gameStarted`, `passedTurn`, `gameOver` and `autoPlay`. It also covers which message pool the final message came from (the outcome) and whether a dealer draw is waiting on its timer.
- **The transitions**:
  - `startGame`, `hit`, `stand`, `finishGame`, the dealer's timed draw and the restart;
  - the three effects that follow state changes: the player-hand effect (stand at 21, lose over 21), the dealer-hand effect (score the face-up dealer cards), and the resolution effect (tie, loss, win or one more dealer draw).

Modules:

- `Scoring` (`scoring.dfy`): card values and the score. The score's contract is a closed form: the raw sum, less 10 when it busts with an ace in the hand.
- `Hands` (`hands.dfy`): cards, turning a hand face up, and keeping only its face-up cards.
- `Rules` (`rules.dfy`): the state as one value `Table` and every transition as a pure function.
  - The effects run synchronously after each action, in the order the component declares them: player hand, dealer hand, then resolution. Resolution runs only when the dealer's score changed.
  - The invariant `Valid` holds for every reachable state, and every step is proved to keep it.
  - Lemmas state what each step decides.
- `App` (`game.dfy`): class `Game` is the component itself.
  - Its fields are the state hooks, and its methods update them in place.
  - `stand` turns the hidden dealer card face up inside a loop over the dealer's hand.
  - Every method is proved to perform exactly the matching `Rules` transition, so the `Rules` lemmas apply to the class.
- `Scenarios` (`scenarios.dfy`): whole games played through the rules, for any cards of the given ranks.
- `Findings` (`findings.dfy`): two defects of the code as written, each with a corrected definition (see "## Findings").

Where the cards come from:

- Drawn cards are parameters of the steps. The deck service never marks a card hidden, so drawn cards are face up.
- The deck service is not modelled.

When each button and the dealer's timer can act is written as `Rules.Enabled`. The component decides this through button visibility, not through checks inside its functions. So the `Game` methods have no such preconditions, and the lemmas about reachable states assume `Enabled`.

The deal follows the code. Four cards are drawn (src/App.js:89), but only three are used (src/App.js:91-95). The player gets the first two cards, and the dealer gets a face-down copy of the player's second card (src/App.js:93), then the third. "## Findings" treats this as a defect; its correction deals each drawn card once, alternating from the player.

## Model

| member | source | states |
|---|---|---|
| Scoring.Value | src/App.js:49-53 | a card counts 2 to 11; 11 exactly for an ace; 10 exactly for jack, queen, king or a 10 |
| Scoring.Values | src/App.js:49-53 | the per-card values keep the hand's length and order, each the value of its card |
| Scoring.FirstIndex | src/App.js:58 | the index found holds the sought value and no earlier index does |
| Scoring.TotalOfValues | src/App.js:55 | the left-to-right running sum of the values equals the reference sum `Points` |
| Scoring.TotalUpdate | src/App.js:59-60 | re-summing after overwriting one value changes the sum by exactly the difference |
| Scoring.AceIsEleven | src/App.js:57 | a value 11 occurs among the card values exactly when the hand holds an ace |
| Scoring.Score | src/App.js:48-64 | the score is the raw sum, less 10 when the raw sum is over 21 and the hand holds an ace: exactly one ace is re-counted |
| Scoring.ScoreBounds | src/App.js:55-63 | the score is never negative, never above the raw sum nor more than 10 below it, at least 2 for a non-empty hand, and 0 exactly for the empty hand |
| Scoring.SecondAceNotSoftened | src/App.js:57-61 | with two or more aces and a raw sum over 31, the score is the raw sum less 10 and still over 21: a second ace is never re-counted |
| Scoring.ScoreExamples | src/App.js:48-64 | ace+king 21, two aces 12, three aces 23, ace+ace+king 22 |
| Scoring.MoreScoreExamples | src/App.js:48-64 | 10+9+5 is returned as 24; 5+ace+king scores 16, the same as 5+ace |
| Scoring.DealerHandExamples | src/App.js:48-64 | 10+2 is 12, +5 is 17, then +2 is 19 and +5 is 22 |
| Scoring.PointsRange | src/App.js:49-55 | the raw sum of n cards lies between 2n and 11n |
| Scoring.PointsOfPermutation | src/App.js:55 | the raw sum depends only on which cards are held |
| Scoring.ScoreIgnoresOrder | src/App.js:57-61 | the score depends only on which cards are held, although only the first ace is re-counted |
| Scoring.TwoCards | src/App.js:48-64 | a two-card hand never busts, and adding a card in front of a single card raises its score |
| Hands.Ranks | src/App.js:49 | the ranks of a hand keep its length and order |
| Hands.Reveal | src/App.js:112-115 | turning the hand up keeps its length and order and changes only each card's hidden flag, to false |
| Hands.Revealed | src/App.js:143 | a card is kept exactly when it is in the hand and face up; never longer than the hand |
| Hands.RevealedOfFaceUp | src/App.js:143 | filtering a face-up hand keeps all of it |
| Hands.RevealedAppend | src/App.js:143 | filtering distributes over concatenation |
| Hands.DrawnRanks | src/App.js:104 | a drawn card appends its rank and scores with the old ranks |
| Hands.RevealKeepsRanks | src/App.js:112-115 | a revealed hand is face up, has the same ranks, and is kept whole by the filter |
| Rules.StandDecides | src/App.js:109-119 | from the player's turn at 21 or under, `stand` passes the turn, turns the dealer's hand up, keeps the player's hand and score, always raises the dealer's score to that of the turned-up hand, and so ends the game or schedules a draw |
| Rules.StartGameStep | src/App.js:86-99 | from the initial state the start gives the player the first two cards (the second still face up) and passes the turn exactly when they make 21; the dealer has a hidden copy of the second card and the third, turned up if the turn passed; the invariant holds |
| Rules.OpeningStep | src/App.js:133-146 | after a deal of two player cards and a face-down and a face-up dealer card, both hand effects leave a valid state: the player's turn, or a passed turn exactly at 21 with the game over or a draw scheduled |
| Rules.OpeningNatural | src/App.js:133-139 | two opening player cards making 21 trigger the stand at once, with every dealer card turned up |
| Rules.OpeningPlain | src/App.js:141-146 | otherwise it is the player's turn with the dealer's first card still down |
| Rules.HoleCardUnscored | src/App.js:141-146 | while the dealer's first card is down, the dealer's score is the second card's value alone, never 0 |
| Rules.HitStep | src/App.js:76-80 | a hit appends exactly the drawn card and stores the new score. The dealer's hand is untouched unless the turn passes. Over 21: lost at once, without passing the turn or dealer play. At 21: the turn passes and the game ends or a draw is scheduled. Under 21: still the player's turn |
| Rules.StandStep | src/App.js:109-119 | the stand button passes the turn for good, keeps the player's hand and score, turns the dealer's hand up in place, raises the dealer's score to that of the whole hand, and ends the game or schedules a draw |
| Rules.DealerEffectSettled | src/App.js:141-146 | on a started valid state the dealer-hand effect finds its score already stored and changes nothing |
| Rules.ResolutionDecides | src/App.js:148-173 | on a new non-zero dealer score after the stand, the resolution effect records an outcome that agrees with the scores or schedules one more draw, touching no hand |
| Rules.DealerDrawStep | src/App.js:101-107 | a dealer draw appends exactly the drawn card and leaves the player's hand and score alone; the game ends or another draw is scheduled exactly when the dealer's score changed |
| Rules.OpenWhileDealerBehind | src/App.js:148-173 | after the stand the game is open exactly while the dealer is behind; once over, the outcome is tie on equal scores, win on a dealer bust, loss otherwise, with nothing scheduled |
| Rules.ValidPreserved | src/App.js:133-173 | every enabled action keeps the invariant: scores track hands, the hole card is down until the stand, outcomes agree with the scores |
| Rules.GameOverIsFinal | src/App.js:194-200 | once the game is over only the restart can act: no hit, stand or dealer draw |
| Rules.OutcomeMeaning | src/App.js:148-173 | a win means a dealer bust with the player at most 21, a tie equal scores, a loss a player bust or a dealer ahead without busting; an open game has the player at most 21 |
| Rules.FourthCardUnused | src/App.js:89-95 | the start's result does not depend on the fourth card drawn |
| Scenarios.StartWithout21 | src/App.js:86-99 | a start whose first two cards do not make 21 leaves the player to act with their score, and the dealer showing the third card's score |
| Scenarios.DrawScores | src/App.js:101-107 | after a dealer draw the dealer's score is that of the whole face-up hand, and the game stays open exactly while the dealer is behind |
| Scenarios.HitTo23 | src/App.js:133-139 | hitting a 6 on 9 and 8 is lost at once with the turn not passed and the dealer's hand untouched |
| Scenarios.StartOn17 | src/App.js:86-99 | a 9 and an 8 dealt to the player leave them to act on those two cards |
| Scenarios.BustLosesAtOnce | src/App.js:76-80 | a start on 9 and 8 then a hit with a 6 ends in a loss before any dealer play |
| Scenarios.StandOn18 | src/App.js:109-119 | standing on 18 against a hidden 10 over a 2 shows the dealer at 12 and schedules a draw |
| Scenarios.DrawTo17 | src/App.js:101-107 | the dealer at 12 draws a 5: 17, still behind 18, plays on |
| Scenarios.DrawToDecide | src/App.js:148-173 | the dealer at 17 against 18 draws a 2 (19, loss) or a 5 (22, win) and stops |
| Scenarios.DealerPlaysOnThenDecides | src/App.js:148-173 | the dealer's whole turn against 18: 12, 17, then 19 (loss) or 22 (win) |
| Scenarios.StartOn18 | src/App.js:86-99 | an 8 and a 10 to the player leave them on 18 with the dealer's hand a hidden 10 over the third card |
| Scenarios.NaturalStandsAtOnce | src/App.js:133-139 | an ace and a king dealt to the player pass the turn without a press of Stand; the dealer, turned up at 17, is behind and a draw is scheduled |
| Findings.StartDealsSecondCardTwice | src/App.js:91-95 | as written, the table after the start holds the first card, the second card twice and the third, and not the fourth |
| Findings.SecondCardTwiceIsNotTheDraw | src/App.js:91-95 | those are not the four cards drawn whenever the fourth differs from the second |
| Findings.StartGameDealingEachOnceStep | src/App.js:86-99 | the corrected, alternating deal keeps the invariant and puts the four drawn cards on the table, each once |
| Findings.EachOnceIsTheDraw | src/App.js:89 | the alternating deal is a permutation of the draw |
| Findings.StuckAllowsNothing | src/App.js:194-200 | in a stuck state (after the stand, not over, no draw scheduled) no button is shown and no timer fires |
| Findings.UnchangedDrawStalls | src/App.js:173 | as written, a dealer draw that leaves the dealer's score unchanged leaves the game stuck |
| Findings.StallStart | src/App.js:86-99 | an ace and a 5 to the player: 16, the player's turn, the dealer a hidden 5 over an ace |
| Findings.StallHit | src/App.js:76-80 | hitting a 2 makes 18, still the player's turn |
| Findings.StallStand | src/App.js:109-119 | standing on 18 turns up 5 and ace, 16, and schedules a draw |
| Findings.StallDraw | src/App.js:141-146 | the dealer draws a king: 26 re-counted to 16, unchanged, so the game is stuck |
| Findings.DealerStallsOnAceAndKing | src/App.js:148-173 | the whole game above ends stuck, with no outcome and no restart button |
| Findings.DealerDrawResolvingDecides | src/App.js:148-173 | the corrected draw, which resolves after every dealer draw, keeps the invariant, always ends the game or schedules a draw, never sticks, and agrees with the draw as written when the score changes |
| Findings.CorrectedNeverStalls | src/App.js:133-173 | in the corrected game every enabled action keeps the invariant and none leads into a stuck state |
| App.Game.constructor | src/App.js:34-44 | the component starts with no cards, both scores 0 and every flag off |
| App.Game.StartGame | src/App.js:86-99 | performs the start and both hand effects, as `Rules.StartGame` |
| App.Game.Hit | src/App.js:76-80 | appends the card and runs the player-hand effect, as `Rules.Hit` |
| App.Game.Stand | src/App.js:109-119 | passes the turn, turns every hidden dealer card up in place, starts the dealer's play and runs the dealer-hand effect, as `Rules.Stand` |
| App.Game.FinishGame | src/App.js:121-125 | the game is over and lost, as `Rules.FinishGame` |
| App.Game.DealerAutoPlay | src/App.js:101-102 | schedules one dealer draw and changes nothing else |
| App.Game.DealerDraw | src/App.js:102-106 | the scheduled draw appends the card and runs the dealer-hand effect, as `Rules.DealerDraw` |
| App.Game.Restart | src/App.js:82-84 | the reload returns to the initial state |
| App.Game.PlayerCardsEffect | src/App.js:133-139 | stores the player's score, stands at 21 and loses over 21, as `Rules.PlayerCardsEffect` |
| App.Game.DealerCardsEffect | src/App.js:141-146 | stores the score of the face-up dealer cards and resolves only when it changed, as `Rules.DealerCardsEffect` |
| App.Game.DealerSumEffect | src/App.js:148-173 | tie, loss, win or another draw, in the source's order of tests, as `Rules.DealerSumEffect` |

## Left out

- The deck service client (`drawCards`, `getDeck`, `deckId`): network I/O. Drawn cards are step parameters and every draw succeeds. A failed draw is not modelled. There `drawCards` logs the error and returns nothing (src/App.js:71-73), and the caller then fails when it reads the first card (src/App.js:78, 91, 104). A failed start has already marked the game started (src/App.js:87), so it leaves a started game with no cards, with Hit and Stand showing. A failed dealer draw schedules no further draw, so the game stalls.
- The one-second delay before a dealer draw: timing. A scheduled draw is the flag `drawPending`, and its firing is the step `DealerDraw`.
- The random pick of the win, tie or loss message (`helpers.random`, whose source is not part of this model). Only the pool is kept, as the outcome.
- The score line (`Jugador … Dealer`), the markup, button styling and the card component `src/components/Card.js`: presentation. Button visibility is kept as `Rules.Enabled`.
- React's scheduling: batched state updates, effects run after rendering, and closures that read state from an earlier render. The effects run synchronously, in declaration order, right after the action that triggers them.
- Interleavings the asynchronous handlers allow, such as a second press of Hit while a draw is in flight, or a press during `startGame`'s await: concurrency.
- Card suits, images and the string form of a rank: only the rank matters to the game.
- The page reload of `restartGame`: modelled as a return to the initial state.

## Findings

| source | as written | input that shows it | evidently intended | confidence | as-written member | corrected member |
|---|---|---|---|---|---|---|
| src/App.js:91-95 | the player gets cards 1 and 2 of the draw; the dealer gets a face-down copy of card 2, then card 3; card 4 is unused | any four different cards: the table holds card 1, card 2 twice and card 3 | each drawn card dealt once: player cards 1 and 3, dealer card 2 face down and card 4 | not executed | Findings.StartDealsSecondCardTwice | Findings.StartGameDealingEachOnceStep |
| src/App.js:148-173 | the resolution effect runs only when the dealer's score changes | the player holds ace and 5, hits a 2 (18) and stands. The dealer turns up 5 and ace (16), then draws a king (26, re-counted to 16). Result: no outcome, no further draw, no button shown | the table resolves after every dealer draw, so the game ends or the dealer draws again | not executed | Findings.DealerStallsOnAceAndKing | Findings.DealerDrawResolvingDecides |

`Rules` and `App.Game` model the code as written. `Findings.ApplyCorrected` is the game with both corrections, and `Findings.CorrectedNeverStalls` proves it keeps the invariant and never sticks.
