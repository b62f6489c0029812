/** Card scoring of the Blackjack table: the rule `calculateCardValues` applies to a hand.
    Every card gets a value (faces 10, an ace 11, a pip card its number), the values are
    summed, and when the sum is over 21 the FIRST ace alone is re-counted as 1. */
module Scoring {

  /** The number on a pip card, as the deck service reports it ("2" .. "10"). */
  type Face = n: int | 2 <= n <= 10 witness 2

  /** The `value` field of a drawn card. */
  datatype Rank = Pip(face: Face) | Jack | Queen | King | Ace

  /** What a single card counts before the ace correction. */
  function Value(r: Rank): (v: int)
    ensures 2 <= v <= 11
    ensures v == 11 <==> r == Ace
    ensures v == 10 <==> r in {Jack, Queen, King, Pip(10)}
  {
    match r
    case Jack | Queen | King => 10
    case Ace => 11
    case Pip(n) => n
  }

  /** The per-card values of a hand, in hand order (the `map` step). */
  function Values(hand: seq<Rank>): (vs: seq<int>)
    ensures |vs| == |hand|
    ensures forall i :: 0 <= i < |hand| ==> vs[i] == Value(hand[i])
  {
    if hand == [] then [] else [Value(hand[0])] + Values(hand[1..])
  }

  /** A left-to-right running sum starting from 0 (the `reduce` step). */
  function Total(vs: seq<int>): int
  {
    if vs == [] then 0 else Total(vs[..|vs| - 1]) + vs[|vs| - 1]
  }

  /** The position of the first occurrence of `v` (the `findIndex` step). */
  function FirstIndex(vs: seq<int>, v: int): (i: nat)
    requires v in vs
    ensures i < |vs| && vs[i] == v
    ensures forall j :: 0 <= j < i ==> vs[j] != v
  {
    if vs[0] == v then 0 else 1 + FirstIndex(vs[1..], v)
  }

  /** The score of a hand, computed the way the game computes it: sum the values, and
      if that is over 21 and some value is 11, turn the first 11 into 1 and sum again.
      In closed form it is the raw sum, less 10 when that busts and the hand holds an
      ace: exactly one ace is ever re-counted, however many the hand has. */
  function Score(hand: seq<Rank>): (s: int)
    ensures s == if Points(hand) > 21 && Ace in hand then Points(hand) - 10 else Points(hand)
  {
    var vs := Values(hand);
    var sum := Total(vs);
    TotalOfValues(hand);
    AceIsEleven(hand);
    if sum > 21 && 11 in vs then
      TotalUpdate(vs, FirstIndex(vs, 11), 1);
      Total(vs[FirstIndex(vs, 11) := 1])
    else sum
  }

  /** Reference definition: the plain sum of card values, every ace at 11. */
  function Points(hand: seq<Rank>): int
  {
    if hand == [] then 0 else Value(hand[0]) + Points(hand[1..])
  }

  lemma {:induction false} TotalCons(x: int, vs: seq<int>)
    ensures Total([x] + vs) == x + Total(vs)
  {
    if vs != [] {
      var n := |vs|;
      assert ([x] + vs)[..n] == [x] + vs[..n - 1];
      TotalCons(x, vs[..n - 1]);
    }
  }

  /** The running sum of the card values is the reference sum. */
  lemma {:induction false} TotalOfValues(hand: seq<Rank>)
    ensures Total(Values(hand)) == Points(hand)
  {
    if hand != [] {
      TotalOfValues(hand[1..]);
      TotalCons(Value(hand[0]), Values(hand[1..]));
    }
  }

  /** Overwriting one value changes the running sum by exactly the difference. */
  lemma {:induction false} TotalUpdate(vs: seq<int>, i: int, x: int)
    requires 0 <= i < |vs|
    ensures Total(vs[i := x]) == Total(vs) - vs[i] + x
  {
    var n := |vs|;
    if i < n - 1 {
      assert vs[i := x][..n - 1] == vs[..n - 1][i := x];
      TotalUpdate(vs[..n - 1], i, x);
    } else {
      assert vs[i := x][..n - 1] == vs[..n - 1];
    }
  }

  lemma {:induction false} PointsAppend(a: seq<Rank>, b: seq<Rank>)
    ensures Points(a + b) == Points(a) + Points(b)
  {
    if a != [] {
      assert (a + b)[1..] == a[1..] + b;
      PointsAppend(a[1..], b);
    } else {
      assert a + b == b;
    }
  }

  /** Every card is worth between 2 and 11 before the correction. */
  lemma {:induction false} PointsRange(hand: seq<Rank>)
    ensures 2 * |hand| <= Points(hand) <= 11 * |hand|
  {
    if hand != [] {
      PointsRange(hand[1..]);
    }
  }

  /** A value of 11 among the card values means an ace in the hand, and conversely. */
  lemma AceIsEleven(hand: seq<Rank>)
    ensures 11 in Values(hand) <==> Ace in hand
  {
    var vs := Values(hand);
    if 11 in vs {
      var i :| 0 <= i < |vs| && vs[i] == 11;
      assert hand[i] == Ace;
    }
    if Ace in hand {
      var i :| 0 <= i < |hand| && hand[i] == Ace;
      assert vs[i] == 11;
    }
  }

  /** Bounds on a score: never negative, never above the raw sum, at most 10 below it,
      and zero exactly for the empty hand (a non-empty hand scores at least 2). */
  lemma ScoreBounds(hand: seq<Rank>)
    ensures 0 <= Score(hand) <= Points(hand)
    ensures Score(hand) >= Points(hand) - 10
    ensures hand != [] ==> Score(hand) >= 2
    ensures Score(hand) == 0 <==> hand == []
  {
    PointsRange(hand);
  }

  /** A hand that busts with the one ace correction stays bust: a second ace is never
      re-counted, so a hand can score over 21 while still holding an ace at 11. */
  lemma SecondAceNotSoftened(hand: seq<Rank>)
    requires multiset(hand)[Ace] >= 2
    requires Points(hand) > 31
    ensures Score(hand) == Points(hand) - 10 > 21
  {
    assert Ace in multiset(hand);
  }

  /** Worked values of the rule. */
  lemma ScoreExamples()
    ensures Score([Ace, King]) == 21
    ensures Score([Ace, Ace]) == 12
    ensures Score([Ace, Ace, Ace]) == 23
    ensures Score([Ace, Ace, King]) == 22
  {
  }

  /** A bust without an ace, and an ace that absorbs a ten-card (the score stays 16). */
  lemma MoreScoreExamples()
    ensures Score([Pip(10), Pip(9), Pip(5)]) == 24
    ensures Score([Pip(5), Ace, King]) == 16 == Score([Pip(5), Ace])
  {
  }

  /** A dealer hand growing from a 10 and a 2, the way the dealer keeps drawing. */
  lemma DealerHandExamples()
    ensures Score([Pip(10), Pip(2)]) == 12 && Score([Pip(10), Pip(2), Pip(5)]) == 17
    ensures Score([Pip(10), Pip(2), Pip(5), Pip(2)]) == 19
    ensures Score([Pip(10), Pip(2), Pip(5), Pip(5)]) == 22
  {
  }

  /** Taking one card out of a hand lowers its raw sum by that card's value. */
  lemma PointsRemove(b: seq<Rank>, j: int)
    requires 0 <= j < |b|
    ensures Points(b) == Value(b[j]) + Points(b[..j] + b[j + 1..])
  {
    var l, r := b[..j], b[j + 1..];
    assert b == l + ([b[j]] + r);
    assert ([b[j]] + r)[1..] == r;
    PointsAppend(l, [b[j]] + r);
    PointsAppend(l, r);
  }

  lemma MultisetRemove(b: seq<Rank>, j: int)
    requires 0 <= j < |b|
    ensures multiset(b[..j] + b[j + 1..]) == multiset(b) - multiset{b[j]}
  {
    assert b == b[..j] + [b[j]] + b[j + 1..];
  }

  /** The raw sum depends only on which cards are held, not on their order. */
  lemma {:induction false} PointsOfPermutation(a: seq<Rank>, b: seq<Rank>)
    requires multiset(a) == multiset(b)
    ensures Points(a) == Points(b)
  {
    if a == [] {
      assert |b| == |multiset(b)| == 0;
    } else {
      assert a[0] in multiset(b);
      var j :| 0 <= j < |b| && b[j] == a[0];
      MultisetRemove(b, j);
      assert a == [a[0]] + a[1..];
      assert multiset(a[1..]) == multiset(a) - multiset{a[0]};
      PointsOfPermutation(a[1..], b[..j] + b[j + 1..]);
      PointsRemove(b, j);
    }
  }

  /** The score does not depend on the order of the cards: which ace is the "first"
      one does not matter to the total. */
  lemma ScoreIgnoresOrder(a: seq<Rank>, b: seq<Rank>)
    requires multiset(a) == multiset(b)
    ensures Score(a) == Score(b)
  {
    PointsOfPermutation(a, b);
    assert Ace in a <==> Ace in multiset(a);
    assert Ace in b <==> Ace in multiset(b);
  }

  /** A two-card hand never busts, and adding a card in front of a single card always
      raises the score (this is what revealing the dealer's hidden card does). */
  lemma TwoCards(hidden: Rank, shown: Rank)
    ensures Score([hidden, shown]) <= 21
    ensures Score([hidden, shown]) > Score([shown])
  {
    assert [hidden, shown][1..] == [shown];
    assert Points([hidden, shown]) == Value(hidden) + Points([shown]);
  }
}
