/**
 * The blackjack table: card values and the hand score exactly as the table
 * computes them (an Ace's value depends on the running score, and every Ace
 * may later be downgraded by 10), the deal, the player's hit and stand, the
 * dealer's draw to 17, the winner and the payout.
 */
module Blackjack {
  import opened Wrappers
  import opened Betting
  import opened Cards

  // ---------------------------------------------------------------------
  // Scores

  /**
   * `getCardValue`: J, Q and K are worth 10, an Ace 11 unless that would
   * take the running score past 21 (then 1), a number card its number.
   */
  function CardValue(c: Card, currentScore: int): (v: int)
    ensures c.rank == Ace ==> (v == 1 <==> currentScore + 11 > 21) && (v == 11 <==> currentScore + 11 <= 21)
    ensures Jack <= c.rank <= King ==> v == 10
    ensures c.rank <= Ten ==> v == c.rank + 2 && 2 <= v <= 10
  {
    if Jack <= c.rank <= King then 10
    else if c.rank == Ace then (if currentScore + 11 > 21 then 1 else 11)
    else c.rank + 2
  }

  /** The score the `forEach` of `calculateScore` reaches: each card valued against the score so far. */
  function RunningSum(hand: seq<Card>): int
    decreases |hand|
  {
    if hand == [] then 0
    else
      var before := RunningSum(hand[..|hand| - 1]);
      before + CardValue(hand[|hand| - 1], before)
  }

  /** How many Aces the hand holds (the `aces` counter). */
  function AceCount(hand: seq<Card>): nat
    decreases |hand|
  {
    if hand == [] then 0
    else AceCount(hand[..|hand| - 1]) + (if hand[|hand| - 1].rank == Ace then 1 else 0)
  }

  /** The closing loop: take 10 off while the score is over 21 and Aces remain. */
  function Downgrade(score: int, aces: nat): int
    decreases aces
  {
    if score > 21 && aces > 0 then Downgrade(score - 10, aces - 1) else score
  }

  /** What `calculateScore` returns for a hand. */
  function Score(hand: seq<Card>): int
  {
    Downgrade(RunningSum(hand), AceCount(hand))
  }

  /**
   * `calculateScore`, its two loops as written: the running score and the
   * Ace count over the hand, then the downgrade.
   */
  method CalculateScore(hand: seq<Card>) returns (score: int)
    ensures score == Score(hand)
  {
    score := 0;
    var aces := 0;
    var i := 0;
    while i < |hand|
      invariant 0 <= i <= |hand|
      invariant score == RunningSum(hand[..i]) && aces == AceCount(hand[..i])
    {
      var card := hand[i];
      if card.rank == Ace {
        aces := aces + 1;
      }
      score := score + CardValue(card, score);
      i := i + 1;
      assert hand[..i][..i - 1] == hand[..i - 1];
    }
    assert hand[..i] == hand;
    while score > 21 && aces > 0
      invariant Downgrade(score, aces) == Score(hand)
      decreases aces
    {
      score := score - 10;
      aces := aces - 1;
    }
  }

  /**
   * The downgrade takes off 10 a number of times `k`, never more than there
   * are Aces; it stops at the first score of 21 or less, or when every Ace
   * has been used.
   */
  lemma {:induction false} DowngradeShape(score: int, aces: nat)
    ensures var d := Downgrade(score, aces);
      && (score - d) % 10 == 0 && 0 <= score - d <= 10 * aces
      && (d <= 21 || score - d == 10 * aces)
      && (d < score ==> d + 10 > 21)
    decreases aces
  {
    if score > 21 && aces > 0 {
      DowngradeShape(score - 10, aces - 1);
    }
  }

  /** The score is the running sum less 10 for some of the Aces, as `DowngradeShape` says. */
  lemma ScoreShape(hand: seq<Card>)
    ensures var k := (RunningSum(hand) - Score(hand)) / 10;
      && Score(hand) == RunningSum(hand) - 10 * k
      && 0 <= k <= AceCount(hand)
      && (Score(hand) <= 21 || k == AceCount(hand))
      && (k > 0 ==> Score(hand) + 10 > 21)
  {
    DowngradeShape(RunningSum(hand), AceCount(hand));
  }

  /** Value of a card that is not an Ace: its number, or 10 for a face card. */
  function FaceValue(c: Card): int
    requires c.rank != Ace
  {
    if c.rank >= Jack then 10 else c.rank + 2
  }

  function FaceSum(hand: seq<Card>): int
    requires forall k :: 0 <= k < |hand| ==> hand[k].rank != Ace
    decreases |hand|
  {
    if hand == [] then 0 else FaceSum(hand[..|hand| - 1]) + FaceValue(hand[|hand| - 1])
  }

  /** Without an Ace the score is the plain sum of the card values, even past 21. */
  lemma {:induction false} NoAceScore(hand: seq<Card>)
    requires forall k :: 0 <= k < |hand| ==> hand[k].rank != Ace
    ensures AceCount(hand) == 0
    ensures RunningSum(hand) == FaceSum(hand)
    ensures Score(hand) == FaceSum(hand)
    decreases |hand|
  {
    if hand != [] {
      NoAceScore(hand[..|hand| - 1]);
    }
  }

  /** Two cards never score over 21, so the deal cannot bust the player. */
  lemma TwoCardsAtMost21(hand: seq<Card>)
    requires |hand| == 2
    ensures Score(hand) <= 21
  {
    RunningSumStep([], hand[0]);
    assert [] + [hand[0]] == hand[..1];
    RunningSumStep(hand[..1], hand[1]);
    assert hand[..1] + [hand[1]] == hand;
    DowngradeShape(RunningSum(hand), AceCount(hand));
  }

  /** Adding a card at the end: it is valued against the score so far. */
  lemma RunningSumStep(hand: seq<Card>, c: Card)
    ensures RunningSum(hand + [c]) == RunningSum(hand) + CardValue(c, RunningSum(hand))
    ensures AceCount(hand + [c]) == AceCount(hand) + (if c.rank == Ace then 1 else 0)
  {
    assert (hand + [c])[..|hand|] == hand;
  }

  /** King, 5, Ace, 9: the Ace comes in as 1 at 15, and the 25 reached is brought back to 15. */
  lemma ScoreKingFiveAceNine()
    ensures Score([Card(Spades, King), Card(Hearts, Five), Card(Clubs, Ace), Card(Diamonds, Nine)]) == 15
  {
    var h1 := [Card(Spades, King)];
    var h2 := h1 + [Card(Hearts, Five)];
    var h3 := h2 + [Card(Clubs, Ace)];
    var h4 := h3 + [Card(Diamonds, Nine)];
    RunningSumStep([], h1[0]);
    assert [] + [h1[0]] == h1;
    RunningSumStep(h1, Card(Hearts, Five));
    RunningSumStep(h2, Card(Clubs, Ace));
    RunningSumStep(h3, Card(Diamonds, Nine));
    assert RunningSum(h4) == 25 && AceCount(h4) == 1;
    assert h4 == [Card(Spades, King), Card(Hearts, Five), Card(Clubs, Ace), Card(Diamonds, Nine)];
  }

  /** 9, Ace, King, 5: the Ace comes in as 11 at 20, and the 25 left after one downgrade stays. */
  lemma ScoreNineAceKingFive()
    ensures Score([Card(Diamonds, Nine), Card(Clubs, Ace), Card(Spades, King), Card(Hearts, Five)]) == 25
  {
    var h1 := [Card(Diamonds, Nine)];
    var h2 := h1 + [Card(Clubs, Ace)];
    var h3 := h2 + [Card(Spades, King)];
    var h4 := h3 + [Card(Hearts, Five)];
    RunningSumStep([], h1[0]);
    assert [] + [h1[0]] == h1;
    RunningSumStep(h1, Card(Clubs, Ace));
    RunningSumStep(h2, Card(Spades, King));
    RunningSumStep(h3, Card(Hearts, Five));
    assert RunningSum(h4) == 35 && AceCount(h4) == 1;
    assert h4 == [Card(Diamonds, Nine), Card(Clubs, Ace), Card(Spades, King), Card(Hearts, Five)];
  }

  /** Ten, Ace: the Ace comes in as 11 and the hand makes 21. */
  lemma ScoreTenAce()
    ensures Score([Card(Spades, Ten), Card(Hearts, Ace)]) == 21
  {
    var h1 := [Card(Spades, Ten)];
    var h2 := h1 + [Card(Hearts, Ace)];
    RunningSumStep([], h1[0]);
    assert [] + [h1[0]] == h1;
    RunningSumStep(h1, Card(Hearts, Ace));
    assert h2 == [Card(Spades, Ten), Card(Hearts, Ace)];
  }

  /** Ace, Ace, 9: the first Ace is 11, the second 1, and the 9 brings the hand to 21. */
  lemma ScoreAceAceNine()
    ensures Score([Card(Spades, Ace), Card(Hearts, Ace), Card(Clubs, Nine)]) == 21
  {
    var h1 := [Card(Spades, Ace)];
    var h2 := h1 + [Card(Hearts, Ace)];
    var h3 := h2 + [Card(Clubs, Nine)];
    RunningSumStep([], h1[0]);
    assert [] + [h1[0]] == h1;
    RunningSumStep(h1, Card(Hearts, Ace));
    RunningSumStep(h2, Card(Clubs, Nine));
    assert RunningSum(h3) == 21 && AceCount(h3) == 2;
    assert h3 == [Card(Spades, Ace), Card(Hearts, Ace), Card(Clubs, Nine)];
  }

  /** King, Queen, 5: no Ace to downgrade, so the hand stays at 25. */
  lemma ScoreKingQueenFive()
    ensures Score([Card(Spades, King), Card(Hearts, Queen), Card(Clubs, Five)]) == 25
  {
    var h1 := [Card(Spades, King)];
    var h2 := h1 + [Card(Hearts, Queen)];
    var h3 := h2 + [Card(Clubs, Five)];
    RunningSumStep([], h1[0]);
    assert [] + [h1[0]] == h1;
    RunningSumStep(h1, Card(Hearts, Queen));
    RunningSumStep(h2, Card(Clubs, Five));
    assert RunningSum(h3) == 25 && AceCount(h3) == 0;
    assert h3 == [Card(Spades, King), Card(Hearts, Queen), Card(Clubs, Five)];
  }

  /** The score depends on the order of the cards: an Ace counted as 1 is still downgraded later. */
  lemma ScoreDependsOnOrder()
    ensures var a := [Card(Spades, King), Card(Hearts, Five), Card(Clubs, Ace), Card(Diamonds, Nine)];
      var b := [Card(Diamonds, Nine), Card(Clubs, Ace), Card(Spades, King), Card(Hearts, Five)];
      multiset(a) == multiset(b) && Score(a) != Score(b)
  {
    ScoreKingFiveAceNine();
    ScoreNineAceKingFive();
  }

  // ---------------------------------------------------------------------
  // Outcomes and payouts

  /**
   * The effect watching the player's hand: over 21 the dealer wins, 21 with
   * the first two cards (a blackjack) the player wins, otherwise play goes on.
   */
  function PlayerHandOutcome(score: int, cards: nat): (w: Option<Winner>)
    ensures w == Some(Dealer) <==> score > 21
    ensures w == Some(Player) <==> score == 21 && cards == 2
    ensures w.None? <==> score <= 21 && !(score == 21 && cards == 2)
    ensures w != Some(Push)
  {
    if score > 21 then Some(Dealer)
    else if score == 21 && cards == 2 then Some(Player)
    else None
  }

  /** The winner once the dealer has drawn: the dealer busting or a higher player score wins for the player. */
  function DealerTurnWinner(playerScore: int, dealerScore: int): (w: Winner)
    ensures w == Player <==> dealerScore > 21 || playerScore > dealerScore
    ensures w == Dealer <==> dealerScore <= 21 && playerScore < dealerScore
    ensures w == Push <==> dealerScore <= 21 && playerScore == dealerScore
  {
    if dealerScore > 21 || playerScore > dealerScore then Player
    else if playerScore < dealerScore then Dealer
    else Push
  }

  /**
   * The payout effect: a player win pays 2.5 times the bet for 21 with two
   * cards and twice the bet otherwise, a push returns the bet, a dealer win
   * pays nothing (the bet was taken at the deal).
   */
  function Payout(w: Winner, bet: int, playerScore: int, playerCards: nat): (amount: real)
    requires bet >= 1
    ensures amount >= 0.0
  {
    match w
    case Player => if playerScore == 21 && playerCards == 2 then 2.5 * bet as real else 2.0 * bet as real
    case Dealer => 0.0
    case Push => bet as real
  }

  /**
   * What a round gains or loses against the bet taken at the deal: a
   * blackjack wins one and a half bets, another win one bet, a push breaks
   * even and a loss costs the bet.
   */
  lemma NetGain(w: Winner, bet: int, playerScore: int, playerCards: nat)
    requires bet >= 1
    ensures var net := Payout(w, bet, playerScore, playerCards) - bet as real;
      && (w == Player && playerScore == 21 && playerCards == 2 ==> net == 1.5 * bet as real)
      && (w == Player && !(playerScore == 21 && playerCards == 2) ==> net == bet as real)
      && (w == Push ==> net == 0.0)
      && (w == Dealer ==> net == -(bet as real))
      && (net > 0.0 <==> w == Player)
      && Payout(w, bet, playerScore, playerCards) >= 0.0
  {
  }

  // ---------------------------------------------------------------------
  // Dealing and drawing

  /** The hands a shuffled deck deals: two pops for the player, then two for the dealer. */
  function PlayerDeal(s: seq<Card>): (hand: seq<Card>)
    requires |s| == 52
  {
    [s[51], s[50]]
  }

  function DealerDeal(s: seq<Card>): (hand: seq<Card>)
    requires |s| == 52
  {
    [s[49], s[48]]
  }

  /** The pops of `handleDeal`: two cards for the player, then two for the dealer. */
  method DealHands(s: seq<Card>) returns (player: seq<Card>, dealer: seq<Card>, rest: seq<Card>)
    requires |s| == 52
    ensures player == PlayerDeal(s) && dealer == DealerDeal(s) && rest == s[..48]
  {
    rest := s;
    player := [rest[|rest| - 1]];
    rest := rest[..|rest| - 1];
    player := player + [rest[|rest| - 1]];
    rest := rest[..|rest| - 1];
    dealer := [rest[|rest| - 1]];
    rest := rest[..|rest| - 1];
    dealer := dealer + [rest[|rest| - 1]];
    rest := rest[..|rest| - 1];
  }

  /** A hand and what is left of the deck. */
  datatype Drawn = Drawn(hand: seq<Card>, deck: seq<Card>)

  /**
   * The dealer's loop: while the score is under 17 and the deck is not
   * empty, pop the top card onto the dealer's hand.
   */
  function DealerPlay(hand: seq<Card>, deck: seq<Card>): (r: Drawn)
    ensures |r.hand| + |r.deck| == |hand| + |deck|
    ensures |hand| <= |r.hand|
    decreases |deck|
  {
    if Score(hand) < 17 && |deck| > 0 then DealerPlay(hand + [deck[|deck| - 1]], deck[..|deck| - 1])
    else Drawn(hand, deck)
  }

  /** The dealer stops only at 17 or more, or with the deck empty. */
  lemma {:induction false} DealerStops(hand: seq<Card>, deck: seq<Card>)
    ensures var r := DealerPlay(hand, deck);
      Score(r.hand) >= 17 || r.deck == []
    decreases |deck|
  {
    if Score(hand) < 17 && |deck| > 0 {
      DealerStops(hand + [deck[|deck| - 1]], deck[..|deck| - 1]);
    }
  }

  /**
   * The dealer's hand only grows, by the deck's top cards in the order they
   * are popped; what is left of the deck is its bottom part.
   */
  lemma {:induction false} DealerDrawsFromTop(hand: seq<Card>, deck: seq<Card>)
    ensures var r := DealerPlay(hand, deck);
      && r.hand[..|hand|] == hand
      && r.deck == deck[..|r.deck|]
      && (forall k :: |hand| <= k < |r.hand| ==> r.hand[k] == deck[|deck| - 1 - (k - |hand|)])
    decreases |deck|
  {
    if Score(hand) < 17 && |deck| > 0 {
      var rest := deck[..|deck| - 1];
      var h := hand + [deck[|deck| - 1]];
      DealerDrawsFromTop(h, rest);
      var r := DealerPlay(h, rest);
      assert r.hand[..|hand|] == r.hand[..|h|][..|hand|];
      assert rest[..|r.deck|] == deck[..|r.deck|];
      forall k | |hand| <= k < |r.hand|
        ensures r.hand[k] == deck[|deck| - 1 - (k - |hand|)]
      {
        if k == |hand| {
          assert r.hand[..|h|][k] == h[k];
        }
      }
    }
  }

  /** Every hand the dealer drew to, before its last card, scored under 17. */
  lemma {:induction false} DealerDrewUnder17(hand: seq<Card>, deck: seq<Card>)
    ensures var r := DealerPlay(hand, deck);
      forall m :: |hand| <= m < |r.hand| ==> Score(r.hand[..m]) < 17
    decreases |deck|
  {
    if Score(hand) < 17 && |deck| > 0 {
      var h := hand + [deck[|deck| - 1]];
      DealerDrawsFromTop(h, deck[..|deck| - 1]);
      DealerDrewUnder17(h, deck[..|deck| - 1]);
      var r := DealerPlay(h, deck[..|deck| - 1]);
      assert r.hand[..|hand|] == r.hand[..|h|][..|hand|] == hand;
    }
  }

  /**
   * The loop of the dealer-turn effect on copies of the dealer's hand and
   * the deck, rescoring the hand after every card.
   */
  method DealerDraws(dealer: seq<Card>, deck: seq<Card>) returns (r: Drawn, score: int)
    ensures r == DealerPlay(dealer, deck) && score == Score(r.hand)
  {
    var hand := dealer;
    var rest := deck;
    score := CalculateScore(hand);
    while score < 17 && |rest| > 0
      invariant score == Score(hand)
      invariant DealerPlay(hand, rest) == DealerPlay(dealer, deck)
      decreases |rest|
    {
      var newCard := rest[|rest| - 1];
      rest := rest[..|rest| - 1];
      hand := hand + [newCard];
      score := CalculateScore(hand);
    }
    r := Drawn(hand, rest);
  }

  /** Deck and both hands together hold the 52 cards, each exactly once. */
  ghost predicate HoldsEveryCard(deck: seq<Card>, player: seq<Card>, dealer: seq<Card>)
  {
    forall c: Card :: multiset(deck)[c] + multiset(player)[c] + multiset(dealer)[c] == 1
  }

  /** The deal only moves cards out of the shuffled deck into the two hands. */
  lemma DealHoldsEveryCard(s: seq<Card>)
    requires |s| == 52 && EachCardOnce(s)
    ensures HoldsEveryCard(s[..48], PlayerDeal(s), DealerDeal(s))
  {
    assert s == s[..48] + [s[48], s[49], s[50], s[51]];
    forall c: Card
      ensures multiset(s[..48])[c] + multiset(PlayerDeal(s))[c] + multiset(DealerDeal(s))[c] == 1
    {
      assert multiset(s)[c] == 1;
    }
  }

  /** A hit moves the deck's top card to the end of the player's hand. */
  lemma HitKeepsEveryCard(deck: seq<Card>, player: seq<Card>, dealer: seq<Card>)
    requires |deck| > 0 && HoldsEveryCard(deck, player, dealer)
    ensures HoldsEveryCard(deck[..|deck| - 1], player + [deck[|deck| - 1]], dealer)
  {
    var n := |deck|;
    assert deck == deck[..n - 1] + [deck[n - 1]];
    forall c: Card
      ensures multiset(deck[..n - 1])[c] + multiset(player + [deck[n - 1]])[c] + multiset(dealer)[c] == 1
    {
      assert multiset(deck)[c] + multiset(player)[c] + multiset(dealer)[c] == 1;
    }
  }

  /** The dealer's draw only moves cards from the deck to the dealer's hand. */
  lemma {:induction false} DealerPlayKeepsEveryCard(deck: seq<Card>, player: seq<Card>, dealer: seq<Card>)
    requires HoldsEveryCard(deck, player, dealer)
    ensures var r := DealerPlay(dealer, deck);
      HoldsEveryCard(r.deck, player, r.hand)
    decreases |deck|
  {
    if Score(dealer) < 17 && |deck| > 0 {
      var n := |deck|;
      assert deck == deck[..n - 1] + [deck[n - 1]];
      forall c: Card
        ensures multiset(deck[..n - 1])[c] + multiset(player)[c] + multiset(dealer + [deck[n - 1]])[c] == 1
      {
        assert multiset(deck)[c] + multiset(player)[c] + multiset(dealer)[c] == 1;
      }
      DealerPlayKeepsEveryCard(deck[..n - 1], player, dealer + [deck[n - 1]]);
    }
  }

  datatype BlackjackState = Betting | PlayerTurn | DealerTurn | GameOver

  /** The table's state (the React state hooks of the blackjack card) and its handlers. */
  class BlackjackTable {
    var credits: real
    var betAmount: int
    var deck: seq<Card>
    var playerHand: seq<Card>
    var dealerHand: seq<Card>
    var playerScore: int
    var dealerScore: int
    var gameState: BlackjackState
    var winner: Option<Winner>

    /**
     * Credits never go negative and the bet is at least 1; during the
     * player's turn the shown scores are those of the hands, and the dealer
     * still holds the two cards it was dealt.
     */
    ghost predicate Valid()
      reads this
    {
      && credits >= 0.0 && betAmount >= 1
      && (gameState == PlayerTurn ==>
            && |playerHand| >= 2 && |dealerHand| == 2 && winner.None?
            && playerScore == Score(playerHand) && dealerScore == Score(dealerHand))
    }

    /** The table as first shown: betting, a bet of 10, no cards out. */
    constructor(initialCredits: real)
      requires initialCredits >= 0.0
      ensures Valid()
      ensures credits == initialCredits && betAmount == 10 && gameState == Betting && winner.None?
      ensures deck == [] && playerHand == [] && dealerHand == [] && playerScore == 0 && dealerScore == 0
    {
      credits := initialCredits;
      betAmount := 10;
      deck := [];
      playerHand := [];
      dealerHand := [];
      playerScore := 0;
      dealerScore := 0;
      gameState := Betting;
      winner := None;
    }

    /** The bet input: whatever is typed is clamped to at least 1. */
    method SetBet(parsed: Option<int>)
      requires Valid()
      modifies this
      ensures Valid()
      ensures betAmount == ClampBet(parsed)
      ensures credits == old(credits) && gameState == old(gameState) && winner == old(winner)
      ensures deck == old(deck) && playerHand == old(playerHand) && dealerHand == old(dealerHand)
      ensures playerScore == old(playerScore) && dealerScore == old(dealerScore)
    {
      betAmount := ClampBet(parsed);
    }

    /**
     * `handleDeal`: with too few credits nothing changes; otherwise the bet
     * is taken, a fresh deck is shuffled, the player gets the top two cards,
     * the dealer the next two, and the player's turn begins.
     */
    method Deal(rand: seq<real>)
      requires Valid() && |rand| == 52 && AllUnit(rand)
      modifies this
      ensures Valid()
      ensures old(credits) < old(betAmount) as real ==> unchanged(this)
      ensures old(credits) >= old(betAmount) as real ==>
        var s := Shuffle(CreateDeck(), rand);
        && |s| == 52
        && credits == old(credits) - old(betAmount) as real && betAmount == old(betAmount)
        && gameState == PlayerTurn && winner.None?
        && playerHand == PlayerDeal(s) && dealerHand == DealerDeal(s) && deck == s[..48]
        && playerScore == Score(playerHand) && dealerScore == Score(dealerHand)
    {
      if credits < betAmount as real {
        return;
      }
      credits := credits - betAmount as real;
      gameState := PlayerTurn;
      winner := None;
      var fullDeck := ShuffleDeck(CreateDeck(), rand);
      ShufflePermutes(CreateDeck(), rand);
      playerHand, dealerHand, deck := DealHands(fullDeck);
      playerScore := CalculateScore(playerHand);
      dealerScore := CalculateScore(dealerHand);
    }

    /**
     * The effect watching the player's hand during the player's turn: a
     * bust ends the round for the dealer, a two-card 21 for the player, and
     * the payout is credited.
     */
    method SettlePlayerHand()
      requires Valid()
      modifies this
      ensures Valid()
      ensures old(gameState) != PlayerTurn || PlayerHandOutcome(old(playerScore), |old(playerHand)|).None?
        ==> unchanged(this)
      ensures old(gameState) == PlayerTurn && PlayerHandOutcome(old(playerScore), |old(playerHand)|).Some? ==>
        && winner == PlayerHandOutcome(old(playerScore), |old(playerHand)|) && gameState == GameOver
        && credits == old(credits) + Payout(winner.value, betAmount, playerScore, |playerHand|)
        && betAmount == old(betAmount) && deck == old(deck)
        && playerHand == old(playerHand) && dealerHand == old(dealerHand)
        && playerScore == old(playerScore) && dealerScore == old(dealerScore)
    {
      if gameState != PlayerTurn {
        return;
      }
      var outcome := PlayerHandOutcome(playerScore, |playerHand|);
      if outcome.None? {
        return;
      }
      winner := outcome;
      gameState := GameOver;
      credits := credits + Payout(outcome.value, betAmount, playerScore, |playerHand|);
    }

    /** `playerHit`: during the player's turn, the deck's top card joins the player's hand. */
    method Hit()
      requires Valid()
      modifies this
      ensures Valid()
      ensures old(gameState) != PlayerTurn || old(deck) == [] ==> unchanged(this)
      ensures old(gameState) == PlayerTurn && old(deck) != [] ==>
        && playerHand == old(playerHand) + [old(deck)[|old(deck)| - 1]]
        && deck == old(deck)[..|old(deck)| - 1]
        && playerScore == Score(playerHand)
        && credits == old(credits) && betAmount == old(betAmount) && gameState == old(gameState)
        && winner == old(winner) && dealerHand == old(dealerHand) && dealerScore == old(dealerScore)
    {
      if gameState != PlayerTurn || |deck| == 0 {
        return;
      }
      var newCard := deck[|deck| - 1];
      var newHand := playerHand + [newCard];
      playerHand := newHand;
      playerScore := CalculateScore(newHand);
      deck := deck[..|deck| - 1];
    }

    /** `playerStand`: hands the turn to the dealer (in whatever state the table is). */
    method Stand()
      requires Valid()
      modifies this
      ensures Valid()
      ensures gameState == DealerTurn
      ensures credits == old(credits) && betAmount == old(betAmount) && winner == old(winner)
      ensures deck == old(deck) && playerHand == old(playerHand) && dealerHand == old(dealerHand)
      ensures playerScore == old(playerScore) && dealerScore == old(dealerScore)
    {
      gameState := DealerTurn;
    }

    /**
     * The dealer-turn effect: the dealer draws to 17 from the deck, the
     * scores are compared, the round ends and the payout is credited.
     */
    method PlayDealer()
      requires Valid()
      modifies this
      ensures Valid()
      ensures old(gameState) != DealerTurn ==> unchanged(this)
      ensures old(gameState) == DealerTurn ==>
        var r := DealerPlay(old(dealerHand), old(deck));
        && dealerHand == r.hand && deck == r.deck && dealerScore == Score(r.hand)
        && winner == Some(DealerTurnWinner(playerScore, dealerScore)) && gameState == GameOver
        && credits == old(credits) + Payout(winner.value, betAmount, playerScore, |playerHand|)
        && betAmount == old(betAmount) && playerHand == old(playerHand) && playerScore == old(playerScore)
    {
      if gameState != DealerTurn {
        return;
      }
      var r, score := DealerDraws(dealerHand, deck);
      dealerHand := r.hand;
      dealerScore := score;
      deck := r.deck;
      var w := DealerTurnWinner(playerScore, score);
      winner := Some(w);
      gameState := GameOver;
      credits := credits + Payout(w, betAmount, playerScore, |playerHand|);
    }

    /** `startNewGame`: back to betting with empty hands; credits, deck and scores stay. */
    method StartNewGame()
      requires Valid()
      modifies this
      ensures Valid()
      ensures gameState == Betting && winner.None? && playerHand == [] && dealerHand == []
      ensures credits == old(credits) && betAmount == old(betAmount) && deck == old(deck)
      ensures playerScore == old(playerScore) && dealerScore == old(dealerScore)
    {
      gameState := Betting;
      winner := None;
      playerHand := [];
      dealerHand := [];
    }
  }
}
