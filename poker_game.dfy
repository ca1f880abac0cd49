/**
 * The versus-poker table: one five-card deal each for player and dealer,
 * one draw for the player (held cards stay), the dealer's fixed redraw
 * rule, and the showdown with its payout.
 */
module PokerGame {
  import opened Wrappers
  import opened Betting
  import opened Cards
  import opened PokerHands

  // ---------------------------------------------------------------------
  // Showdown

  /**
   * The tie-break loop from position `i` on, over the player's list. A
   * position the dealer's list does not have compares as `undefined` does
   * in JavaScript: neither greater nor smaller, so the loop goes on.
   */
  function CompareFrom(a: seq<int>, b: seq<int>, i: nat): Winner
    requires i <= |a|
    decreases |a| - i
  {
    if i == |a| then Push
    else if i < |b| && a[i] > b[i] then Player
    else if i < |b| && a[i] < b[i] then Dealer
    else CompareFrom(a, b, i + 1)
  }

  /** The winner the showdown effect settles on. */
  function ShowdownWinner(p: HandResult, d: HandResult): Winner
  {
    if p.value > d.value then Player
    else if p.value < d.value then Dealer
    else CompareFrom(p.tieBreakerRanks, d.tieBreakerRanks, 0)
  }

  /**
   * The showdown effect's comparison, loop and all: the category values
   * first, then the tie-break ranks in order until one differs.
   */
  method DecideWinner(p: HandResult, d: HandResult) returns (w: Winner)
    ensures w == ShowdownWinner(p, d)
    ensures w == Player <==> LexGreater(p, d)
    ensures w == Dealer <==> LexGreater(d, p)
  {
    ShowdownIsLex(p, d);
    if p.value > d.value {
      return Player;
    } else if p.value < d.value {
      return Dealer;
    }
    var a, b := p.tieBreakerRanks, d.tieBreakerRanks;
    var i := 0;
    while i < |a|
      invariant 0 <= i <= |a|
      invariant CompareFrom(a, b, i) == CompareFrom(a, b, 0)
    {
      if i < |b| && a[i] > b[i] {
        return Player;
      }
      if i < |b| && a[i] < b[i] {
        return Dealer;
      }
      i := i + 1;
    }
    return Push;
  }

  /** The two lists agree on every position both of them have, below `k`. */
  ghost predicate AgreeBelow(a: seq<int>, b: seq<int>, k: int)
  {
    forall j :: 0 <= j < k && j < |a| && j < |b| ==> a[j] == b[j]
  }

  /**
   * `p` beats `d`: a higher category value, or the same value and a higher
   * tie-break rank at the first position where the two lists differ.
   */
  ghost predicate LexGreater(p: HandResult, d: HandResult)
  {
    p.value > d.value
    || (p.value == d.value
        && exists k :: 0 <= k < |p.tieBreakerRanks| && k < |d.tieBreakerRanks|
             && p.tieBreakerRanks[k] > d.tieBreakerRanks[k]
             && AgreeBelow(p.tieBreakerRanks, d.tieBreakerRanks, k))
  }

  lemma {:induction false} CompareFromIsLex(a: seq<int>, b: seq<int>, i: nat)
    requires i <= |a|
    requires AgreeBelow(a, b, i)
    ensures CompareFrom(a, b, i) == Player <==>
      exists k :: i <= k < |a| && k < |b| && a[k] > b[k] && AgreeBelow(a, b, k)
    ensures CompareFrom(a, b, i) == Dealer <==>
      exists k :: i <= k < |a| && k < |b| && a[k] < b[k] && AgreeBelow(a, b, k)
    decreases |a| - i
  {
    if i < |a| {
      if i < |b| && a[i] != b[i] {
        assert forall k :: i < k && AgreeBelow(a, b, k) ==> a[i] == b[i];
      } else {
        CompareFromIsLex(a, b, i + 1);
      }
    }
  }

  /** The showdown loop decides exactly the lexicographic order. */
  lemma ShowdownIsLex(p: HandResult, d: HandResult)
    ensures ShowdownWinner(p, d) == Player <==> LexGreater(p, d)
    ensures ShowdownWinner(p, d) == Dealer <==> LexGreater(d, p)
  {
    var a, b := p.tieBreakerRanks, d.tieBreakerRanks;
    CompareFromIsLex(a, b, 0);
    if p.value == d.value {
      if exists k :: 0 <= k < |b| && k < |a| && b[k] > a[k] && AgreeBelow(b, a, k) {
        var k :| 0 <= k < |b| && k < |a| && b[k] > a[k] && AgreeBelow(b, a, k);
        assert AgreeBelow(a, b, k);
      }
      if exists k :: 0 <= k < |a| && k < |b| && a[k] < b[k] && AgreeBelow(a, b, k) {
        var k :| 0 <= k < |a| && k < |b| && a[k] < b[k] && AgreeBelow(a, b, k);
        assert AgreeBelow(b, a, k);
      }
    }
  }

  /** Swapping the hands swaps the outcome: the comparison favours neither seat. */
  lemma ShowdownAntisymmetric(p: HandResult, d: HandResult)
    ensures ShowdownWinner(p, d) == Player <==> ShowdownWinner(d, p) == Dealer
    ensures ShowdownWinner(p, d) == Push <==> ShowdownWinner(d, p) == Push
  {
    ShowdownIsLex(p, d);
    ShowdownIsLex(d, p);
  }

  /**
   * Two evaluated hands tie exactly when they have the same category and
   * the same tie-break ranks.
   */
  lemma PushIffSameRanks(p: seq<Card>, d: seq<Card>)
    requires |p| == 5 && |d| == 5
    ensures ShowdownWinner(GetHandResult(p), GetHandResult(d)) == Push
        <==> GetHandResult(p).rank == GetHandResult(d).rank
             && GetHandResult(p).tieBreakerRanks == GetHandResult(d).tieBreakerRanks
  {
    var rp, rd := GetHandResult(p), GetHandResult(d);
    var a, b := rp.tieBreakerRanks, rd.tieBreakerRanks;
    ShowdownIsLex(rp, rd);
    ConfigIsStrictOrder(rp.rank, rd.rank);
    if rp.rank == rd.rank {
      SameCategorySameLength(p, d);
      if a != b {
        var k := FirstDifference(a, b);
        if a[k] > b[k] {
          assert LexGreater(rp, rd);
        } else {
          assert LexGreater(rd, rp) by {
            assert AgreeBelow(b, a, k);
          }
        }
      }
    }
  }

  /** Two different lists of the same length differ first at some position. */
  lemma FirstDifference(a: seq<int>, b: seq<int>) returns (k: nat)
    requires |a| == |b| && a != b
    ensures k < |a| && a[k] != b[k] && AgreeBelow(a, b, k)
  {
    assert exists j :: 0 <= j < |a| && a[j] != b[j];
    var j :| 0 <= j < |a| && a[j] != b[j];
    k := 0;
    while a[k] == b[k]
      invariant k <= j && AgreeBelow(a, b, k)
      decreases j - k
    {
      k := k + 1;
    }
  }

  /** A better category wins outright, whatever the cards behind it. */
  lemma BetterCategoryWins(p: seq<Card>, d: seq<Card>)
    requires |p| == 5 && |d| == 5
    requires HandRankConfig(Category(p)).value > HandRankConfig(Category(d)).value
    ensures ShowdownWinner(GetHandResult(p), GetHandResult(d)) == Player
  {
    GetHandResultCategory(p);
    GetHandResultCategory(d);
  }

  /** Credits returned at showdown: twice the bet for a win, the bet for a push. */
  function Payout(w: Winner, bet: int): (amount: int)
    requires bet >= 1
    ensures w == Player ==> amount == 2 * bet
    ensures w == Push ==> amount == bet
    ensures w == Dealer ==> amount == 0
  {
    match w
    case Player => 2 * bet
    case Push => bet
    case Dealer => 0
  }

  // ---------------------------------------------------------------------
  // Dealing and drawing

  /**
   * The cards one seat receives in the first `n` turns of the dealing loop,
   * two cards being popped per turn: `s[top]`, `s[top - 2]`, ...
   */
  function Popped(s: seq<Card>, n: nat, top: nat): (hand: seq<Card>)
    requires 2 * n <= top + 2 && top < |s|
    ensures |hand| == n
  {
    seq(n, (k: int) requires 0 <= k < n => s[top - 2 * k])
  }

  /** The player's five cards: the deck is popped alternately, player first. */
  function PlayerDeal(s: seq<Card>): (hand: seq<Card>)
    requires |s| == 52
    ensures |hand| == 5
  {
    Popped(s, 5, 51)
  }

  function DealerDeal(s: seq<Card>): (hand: seq<Card>)
    requires |s| == 52
    ensures |hand| == 5
  {
    Popped(s, 5, 50)
  }

  /** A hand after a draw, the deck left over, and the cards thrown away. */
  datatype Redrawn = Redrawn(hand: seq<Card>, deck: seq<Card>, discarded: seq<Card>)

  /**
   * Replacing, from position `i` on, every card not kept by the top of the
   * deck (`pop()`), while the deck has cards.
   */
  function RedrawFrom(hand: seq<Card>, keep: seq<bool>, deck: seq<Card>, i: nat): (r: Redrawn)
    requires |hand| == 5 && |keep| == 5 && i <= 5
    ensures |r.hand| == 5 && |r.deck| <= |deck|
    decreases 5 - i
  {
    if i == 5 then Redrawn(hand, deck, [])
    else if !keep[i] && |deck| > 0 then
      var r := RedrawFrom(hand[i := deck[|deck| - 1]], keep, deck[..|deck| - 1], i + 1);
      Redrawn(r.hand, r.deck, [hand[i]] + r.discarded)
    else RedrawFrom(hand, keep, deck, i + 1)
  }

  /** How many positions from `i` on are not kept. */
  function Unheld(keep: seq<bool>, i: nat): nat
    requires i <= |keep|
    decreases |keep| - i
  {
    if i == |keep| then 0 else (if keep[i] then 0 else 1) + Unheld(keep, i + 1)
  }

  /** After `i` turns of dealing, deck and hands hold what the shuffled deck held. */
  lemma {:induction false} DealConserves(s: seq<Card>, i: nat)
    requires |s| == 52 && i <= 5
    ensures multiset(s[..52 - 2 * i]) + multiset(Popped(s, i, 51)) + multiset(Popped(s, i, 50)) == multiset(s)
  {
    if i == 0 {
      assert s[..52] == s;
    } else {
      DealConserves(s, i - 1);
      var rest := s[..54 - 2 * i];
      PopTwo(rest, Popped(s, i - 1, 51), Popped(s, i - 1, 50));
      assert rest[..|rest| - 2] == s[..52 - 2 * i];
      assert Popped(s, i - 1, 51) + [rest[|rest| - 1]] == Popped(s, i, 51);
      assert Popped(s, i - 1, 50) + [rest[|rest| - 2]] == Popped(s, i, 50);
    }
  }

  /** One turn of the dealing loop: the top card to the player, the next to the dealer. */
  lemma PopTwo<T>(rest: seq<T>, player: seq<T>, dealer: seq<T>)
    requires |rest| >= 2
    ensures multiset(rest[..|rest| - 2]) + multiset(player + [rest[|rest| - 1]])
          + multiset(dealer + [rest[|rest| - 2]])
         == multiset(rest) + multiset(player) + multiset(dealer)
  {
    var n := |rest|;
    assert rest == rest[..n - 2] + [rest[n - 2]] + [rest[n - 1]];
    var a, b := multiset(rest[..n - 2]), multiset{rest[n - 2]};
    var c, p, d := multiset{rest[n - 1]}, multiset(player), multiset(dealer);
    assert multiset(rest) == a + b + c;
    forall x
      ensures (a + (p + c) + (d + b))[x] == (a + b + c + p + d)[x]
    {
    }
  }

  /** Popping the top card. */
  lemma PopTop<T>(deck: seq<T>)
    requires |deck| > 0
    ensures multiset(deck) == multiset(deck[..|deck| - 1]) + multiset{deck[|deck| - 1]}
  {
    assert deck == deck[..|deck| - 1] + [deck[|deck| - 1]];
  }

  /** Overwriting position `i` trades the card there for the new one. */
  lemma ReplaceOne<T>(hand: seq<T>, i: nat, top: T)
    requires i < |hand|
    ensures multiset(hand[i := top]) + multiset{hand[i]} == multiset(hand) + multiset{top}
  {
    assert hand == hand[..i] + [hand[i]] + hand[i + 1..];
    assert hand[i := top] == hand[..i] + [top] + hand[i + 1..];
  }

  /** Bookkeeping for one replaced card: `out` goes to the discards, `top` into the hand. */
  lemma SwapOut<T>(kept: multiset<T>, discarded: multiset<T>, hand2: multiset<T>, rest: multiset<T>,
                   hand: multiset<T>, top: multiset<T>, out: multiset<T>)
    requires kept + discarded == hand2 + rest
    requires hand2 + out == hand + top
    ensures kept + (out + discarded) == hand + (rest + top)
  {
    forall c
      ensures (kept + (out + discarded))[c] == (hand + (rest + top))[c]
    {
      assert (kept + discarded)[c] == (hand2 + rest)[c];
      assert (hand2 + out)[c] == (hand + top)[c];
    }
  }

  /** Bookkeeping for two draws in a row, the second from what the first left. */
  lemma Chain<T>(h1: multiset<T>, d1: multiset<T>, x1: multiset<T>, p: multiset<T>, d0: multiset<T>,
                 h2: multiset<T>, d2: multiset<T>, x2: multiset<T>, q: multiset<T>)
    requires h1 + d1 + x1 == p + d0
    requires h2 + d2 + x2 == q + d1
    ensures d2 + h1 + h2 + (x1 + x2) == d0 + p + q
  {
    forall c
      ensures (d2 + h1 + h2 + (x1 + x2))[c] == (d0 + p + q)[c]
    {
      assert (h1 + d1 + x1)[c] == (p + d0)[c];
      assert (h2 + d2 + x2)[c] == (q + d1)[c];
    }
  }

  /** A draw puts back every card it does not replace: held cards stay where they are. */
  lemma {:induction false} RedrawKeepsHeld(hand: seq<Card>, keep: seq<bool>, deck: seq<Card>, i: nat)
    requires |hand| == 5 && |keep| == 5 && i <= 5
    ensures forall j :: 0 <= j < 5 && (j < i || keep[j]) ==>
      RedrawFrom(hand, keep, deck, i).hand[j] == hand[j]
    decreases 5 - i
  {
    if i < 5 {
      if !keep[i] && |deck| > 0 {
        RedrawKeepsHeld(hand[i := deck[|deck| - 1]], keep, deck[..|deck| - 1], i + 1);
      } else {
        RedrawKeepsHeld(hand, keep, deck, i + 1);
      }
    }
  }

  /** A draw loses no card: hand, deck and discards hold what hand and deck held before. */
  lemma {:induction false} RedrawConserves(hand: seq<Card>, keep: seq<bool>, deck: seq<Card>, i: nat)
    requires |hand| == 5 && |keep| == 5 && i <= 5
    ensures var r := RedrawFrom(hand, keep, deck, i);
      multiset(r.hand) + multiset(r.deck) + multiset(r.discarded) == multiset(hand) + multiset(deck)
    decreases 5 - i
  {
    if i < 5 {
      if !keep[i] && |deck| > 0 {
        var top := deck[|deck| - 1];
        var rest := deck[..|deck| - 1];
        var r := RedrawFrom(hand[i := top], keep, rest, i + 1);
        RedrawConserves(hand[i := top], keep, rest, i + 1);
        PopTop(deck);
        ReplaceOne(hand, i, top);
        SwapOut(multiset(r.hand) + multiset(r.deck), multiset(r.discarded),
                multiset(hand[i := top]), multiset(rest), multiset(hand), multiset{top}, multiset{hand[i]});
      } else {
        RedrawConserves(hand, keep, deck, i + 1);
      }
    }
  }

  /**
   * Replacements come off the top of the deck: what is left is a prefix of
   * it, one card shorter per unheld position while cards last.
   */
  lemma {:induction false} RedrawTakesTop(hand: seq<Card>, keep: seq<bool>, deck: seq<Card>, i: nat)
    requires |hand| == 5 && |keep| == 5 && i <= 5
    ensures var r := RedrawFrom(hand, keep, deck, i);
      && r.deck == deck[..|r.deck|]
      && (|deck| >= Unheld(keep, i) ==> |r.deck| == |deck| - Unheld(keep, i))
    decreases 5 - i
  {
    if i < 5 {
      if !keep[i] && |deck| > 0 {
        var rest := deck[..|deck| - 1];
        RedrawTakesTop(hand[i := deck[|deck| - 1]], keep, rest, i + 1);
        var r := RedrawFrom(hand[i := deck[|deck| - 1]], keep, rest, i + 1);
        assert rest[..|r.deck|] == deck[..|r.deck|];
      } else {
        RedrawTakesTop(hand, keep, deck, i + 1);
      }
    }
  }

  /** The dealer holds any pair or better and otherwise replaces its first three cards. */
  function DealerKeeps(hand: seq<Card>): (keep: seq<bool>)
    requires |hand| == 5
    ensures |keep| == 5
  {
    if GetHandResult(hand).value < HandRankConfig(OnePair).value
    then [false, false, false, true, true]
    else [true, true, true, true, true]
  }

  /** The dealer's redraw rule, stated on the categories: only a high-card hand draws. */
  lemma DealerDrawsOnHighCard(hand: seq<Card>)
    requires |hand| == 5
    ensures DealerKeeps(hand) == [true, true, true, true, true] <==> Category(hand) != HighCard
  {
    GetHandResultCategory(hand);
    ConfigIsStrictOrder(Category(hand), HighCard);
  }

  function NoneHeld(): seq<bool>
  {
    [false, false, false, false, false]
  }

  datatype PokerState = Betting | Drawing | Showdown

  /** The table's state (the React state hooks of the poker card) and its handlers. */
  class VersusPoker {
    var credits: int
    var betAmount: int
    var deck: seq<Card>
    var playerHand: seq<Card>
    var dealerHand: seq<Card>
    var selectedCards: seq<bool>
    var gameState: PokerState
    var playerResult: Option<HandResult>
    var dealerResult: Option<HandResult>
    var winner: Option<Winner>

    /**
     * The balance is not negative and the bet is at least 1; there are five
     * hold flags; once dealt, both hands have five cards; while drawing, 42
     * cards are left and no result or winner is shown. That every card is
     * held exactly once across deck, hands and discards is proved about the
     * functions the handlers follow (DealtHoldsEveryCard,
     * DrawHoldsEveryCard, RoundHoldsEveryCard), not kept here.
     */
    ghost predicate Valid()
      reads this
    {
      && credits >= 0 && betAmount >= 1 && |selectedCards| == 5
      && (gameState != Betting ==>
            |playerHand| == 5 && |dealerHand| == 5)
      && (gameState == Drawing ==>
            |deck| == 42 && winner.None?
            && playerResult.None? && dealerResult.None?)
    }

    /** The table as first shown: betting, a bet of 10, no cards out. */
    constructor(initialCredits: int)
      requires initialCredits >= 0
      ensures Valid()
      ensures credits == initialCredits && betAmount == 10 && gameState == Betting
      ensures playerHand == [] && dealerHand == [] && deck == []
      ensures selectedCards == NoneHeld() && winner.None?
      ensures playerResult.None? && dealerResult.None?
    {
      credits := initialCredits;
      betAmount := 10;
      deck := [];
      playerHand := [];
      dealerHand := [];
      selectedCards := NoneHeld();
      gameState := Betting;
      playerResult := None;
      dealerResult := None;
      winner := None;
    }

    /** The bet input: whatever is typed is clamped to at least 1. */
    method SetBet(parsed: Option<int>)
      requires Valid()
      modifies this
      ensures Valid()
      ensures betAmount == ClampBet(parsed)
      ensures credits == old(credits) && gameState == old(gameState) && deck == old(deck)
      ensures playerHand == old(playerHand) && dealerHand == old(dealerHand)
      ensures selectedCards == old(selectedCards) && winner == old(winner)
      ensures playerResult == old(playerResult) && dealerResult == old(dealerResult)
    {
      betAmount := ClampBet(parsed);
    }

    /**
     * `handleDeal`: with too few credits nothing changes; otherwise the bet
     * is taken, a freshly created and shuffled deck is dealt alternately (player first)
     * and the draw begins with nothing held.
     */
    method Deal(rand: seq<real>)
      requires Valid() && |rand| == 52 && AllUnit(rand)
      modifies this
      ensures Valid()
      ensures old(credits) < old(betAmount) ==> unchanged(this)
      ensures old(credits) >= old(betAmount) ==>
        var s := Shuffle(CreateDeck(), rand);
        && credits == old(credits) - old(betAmount) && betAmount == old(betAmount)
        && gameState == Drawing && winner.None? && selectedCards == NoneHeld()
        && playerResult.None? && dealerResult.None?
        && |s| == 52 && playerHand == PlayerDeal(s) && dealerHand == DealerDeal(s) && deck == s[..42]
    {
      if credits < betAmount {
        return;
      }
      credits := credits - betAmount;
      gameState := Drawing;
      winner := None;
      selectedCards := NoneHeld();
      playerResult := None;
      dealerResult := None;

      var newDeck := ShuffleDeck(CreateDeck(), rand);
      ShufflePermutes(CreateDeck(), rand);
      playerHand, dealerHand, deck := DealHands(newDeck);
    }

    /** `toggleCardSelection`: while drawing, flips whether card `index` is held. */
    method ToggleCard(index: nat)
      requires Valid() && index < 5
      modifies this
      ensures Valid()
      ensures old(gameState) != Drawing ==> unchanged(this)
      ensures old(gameState) == Drawing ==>
        selectedCards == old(selectedCards)[index := !old(selectedCards)[index]]
        && credits == old(credits) && betAmount == old(betAmount) && gameState == old(gameState)
        && deck == old(deck) && playerHand == old(playerHand) && dealerHand == old(dealerHand)
        && winner == old(winner) && playerResult == old(playerResult) && dealerResult == old(dealerResult)
    {
      if gameState != Drawing {
        return;
      }
      selectedCards := selectedCards[index := !selectedCards[index]];
    }

    /**
     * `handleDraw`: the player's unheld cards are replaced, the dealer
     * redraws its first three cards on a high-card hand, and the table moves
     * to the showdown, which is still to be settled.
     */
    method Draw()
      requires Valid()
      modifies this
      ensures Valid()
      ensures old(gameState) != Drawing ==> unchanged(this)
      ensures old(gameState) == Drawing ==>
        var r := DrawRound(old(playerHand), old(selectedCards), old(dealerHand), DealerKeeps(old(dealerHand)), old(deck));
        && playerHand == r.player && dealerHand == r.dealer && deck == r.deck
        && gameState == Showdown && winner.None?
        && credits == old(credits) && betAmount == old(betAmount) && selectedCards == old(selectedCards)
        && playerResult == old(playerResult) && dealerResult == old(dealerResult)
    {
      if gameState != Drawing {
        return;
      }
      playerHand, dealerHand, deck := DrawHands(playerHand, selectedCards, dealerHand, deck);
      gameState := Showdown;
    }

    /**
     * The showdown effect, run once when the table enters the showdown:
     * both hands are evaluated, the winner decided and the payout credited.
     */
    method SettleShowdown()
      requires Valid()
      modifies this
      ensures Valid()
      ensures !(old(gameState) == Showdown && old(winner).None?) ==> unchanged(this)
      ensures old(gameState) == Showdown && old(winner).None? ==>
        && gameState == Showdown && betAmount == old(betAmount) && selectedCards == old(selectedCards)
        && playerHand == old(playerHand) && dealerHand == old(dealerHand) && deck == old(deck)
        && Settled(playerHand, dealerHand, playerResult, dealerResult, winner)
        && credits == old(credits) + Payout(winner.value, betAmount)
    {
      if !(gameState == Showdown && winner.None?) {
        return;
      }
      var pResult, dResult, w := EvaluateShowdown(playerHand, dealerHand);
      playerResult, dealerResult, winner := Some(pResult), Some(dResult), Some(w);
      credits := credits + Payout(w, betAmount);
    }

    /** `startNewGame`: back to betting with empty hands; credits and deck stay. */
    method StartNewGame()
      requires Valid()
      modifies this
      ensures Valid()
      ensures gameState == Betting && winner.None? && selectedCards == NoneHeld()
      ensures playerResult.None? && dealerResult.None? && playerHand == [] && dealerHand == []
      ensures credits == old(credits) && betAmount == old(betAmount) && deck == old(deck)
    {
      gameState := Betting;
      winner := None;
      selectedCards := NoneHeld();
      playerResult := None;
      dealerResult := None;
      playerHand := [];
      dealerHand := [];
    }
  }

  /** Deck, hands and discards together hold the 52 cards, each exactly once. */
  ghost predicate HoldsEveryCard(deck: seq<Card>, player: seq<Card>, dealer: seq<Card>, discards: seq<Card>)
  {
    forall c: Card :: (multiset(deck) + multiset(player) + multiset(dealer) + multiset(discards))[c] == 1
  }

  /** Both hands evaluated and compared, as the showdown effect does. */
  method EvaluateShowdown(player: seq<Card>, dealer: seq<Card>) returns (pResult: HandResult, dResult: HandResult, w: Winner)
    requires |player| == 5 && |dealer| == 5
    ensures Settled(player, dealer, Some(pResult), Some(dResult), Some(w))
  {
    pResult := GetHandResult(player);
    dResult := GetHandResult(dealer);
    w := DecideWinner(pResult, dResult);
  }

  /** The results and the winner shown at a settled showdown are those of the two hands. */
  ghost predicate Settled(player: seq<Card>, dealer: seq<Card>, playerResult: Option<HandResult>,
                          dealerResult: Option<HandResult>, winner: Option<Winner>)
  {
    && |player| == 5 && |dealer| == 5
    && playerResult == Some(GetHandResult(player))
    && dealerResult == Some(GetHandResult(dealer))
    && winner == Some(ShowdownWinner(playerResult.value, dealerResult.value))
  }

  /** A deal from a full deck leaves every card in the deck or a hand. */
  lemma DealtHoldsEveryCard(s: seq<Card>)
    requires |s| == 52 && EachCardOnce(s)
    ensures HoldsEveryCard(s[..42], PlayerDeal(s), DealerDeal(s), [])
  {
    DealConserves(s, 5);
    forall c: Card
      ensures (multiset(s[..42]) + multiset(PlayerDeal(s)) + multiset(DealerDeal(s)) + multiset([]))[c] == 1
    {
      assert multiset(s)[c] == 1;
    }
  }

  /** The draw moves cards between deck, hands and discards and loses none. */
  lemma DrawHoldsEveryCard(player: seq<Card>, held: seq<bool>, dealer: seq<Card>, dealerKeep: seq<bool>,
                           deck: seq<Card>, discards: seq<Card>)
    requires |player| == 5 && |held| == 5 && |dealer| == 5 && |dealerKeep| == 5
    requires HoldsEveryCard(deck, player, dealer, discards)
    ensures var r := DrawRound(player, held, dealer, dealerKeep, deck);
      HoldsEveryCard(r.deck, r.player, r.dealer, discards + r.discarded)
  {
    var r := DrawRound(player, held, dealer, dealerKeep, deck);
    DrawRoundConserves(player, held, dealer, dealerKeep, deck);
    forall c: Card
      ensures (multiset(r.deck) + multiset(r.player) + multiset(r.dealer) + multiset(discards + r.discarded))[c] == 1
    {
      assert (multiset(deck) + multiset(player) + multiset(dealer) + multiset(discards))[c] == 1;
      assert (multiset(r.deck) + multiset(r.player) + multiset(r.dealer) + multiset(r.discarded))[c]
          == (multiset(deck) + multiset(player) + multiset(dealer))[c];
      assert multiset(discards + r.discarded) == multiset(discards) + multiset(r.discarded);
    }
  }

  /**
   * A whole round from a fresh shuffle: after the deal and the draw, the
   * deck, both hands and the thrown-away cards hold each of the 52 cards
   * exactly once.
   */
  lemma RoundHoldsEveryCard(rand: seq<real>, held: seq<bool>)
    requires |rand| == 52 && AllUnit(rand) && |held| == 5
    ensures var s := Shuffle(CreateDeck(), rand);
      |s| == 52 &&
      var r := DrawRound(PlayerDeal(s), held, DealerDeal(s), DealerKeeps(DealerDeal(s)), s[..42]);
      HoldsEveryCard(r.deck, r.player, r.dealer, r.discarded)
  {
    var s := Shuffle(CreateDeck(), rand);
    ShuffledDeckIsFull(rand);
    DealtHoldsEveryCard(s);
    var keep := DealerKeeps(DealerDeal(s));
    DrawHoldsEveryCard(PlayerDeal(s), held, DealerDeal(s), keep, s[..42], []);
    var r := DrawRound(PlayerDeal(s), held, DealerDeal(s), keep, s[..42]);
    assert [] + r.discarded == r.discarded;
  }

  /**
   * The draw loop `for (i = 0; i < n; i++) if (!keep[i] && deck.length > 0)
   * hand[i] = deck.pop()`; the positions from `n` on are kept by `keep`.
   */
  method ReplaceUnheld(hand: seq<Card>, keep: seq<bool>, deck: seq<Card>, n: nat) returns (r: Redrawn)
    requires |hand| == 5 && |keep| == 5 && n <= 5
    requires forall j :: n <= j < 5 ==> keep[j]
    ensures r.hand == RedrawFrom(hand, keep, deck, 0).hand
    ensures r.deck == RedrawFrom(hand, keep, deck, 0).deck
  {
    var h := hand;
    var d := deck;
    var i := 0;
    while i < n
      invariant 0 <= i <= n && |h| == 5
      invariant RedrawFrom(h, keep, d, i).hand == RedrawFrom(hand, keep, deck, 0).hand
      invariant RedrawFrom(h, keep, d, i).deck == RedrawFrom(hand, keep, deck, 0).deck
    {
      if !keep[i] && |d| > 0 {
        h := h[i := d[|d| - 1]];
        d := d[..|d| - 1];
      }
      i := i + 1;
    }
    KeptTail(h, keep, d, n);
    r := Redrawn(h, d, []);
  }

  /** Past the last unheld position a draw changes nothing. */
  lemma {:induction false} KeptTail(hand: seq<Card>, keep: seq<bool>, deck: seq<Card>, i: nat)
    requires |hand| == 5 && |keep| == 5 && i <= 5
    requires forall j :: i <= j < 5 ==> keep[j]
    ensures RedrawFrom(hand, keep, deck, i) == Redrawn(hand, deck, [])
    decreases 5 - i
  {
    if i < 5 {
      KeptTail(hand, keep, deck, i + 1);
    }
  }

  /**
   * The dealing loop of `handleDeal`: five times, one card popped for the
   * player, then one for the dealer; 42 cards stay in the deck.
   */
  method DealHands(s: seq<Card>) returns (player: seq<Card>, dealer: seq<Card>, rest: seq<Card>)
    requires |s| == 52
    ensures player == PlayerDeal(s) && dealer == DealerDeal(s) && rest == s[..42]
  {
    player, dealer, rest := [], [], s;
    var i := 0;
    while i < 5
      invariant 0 <= i <= 5
      invariant rest == s[..52 - 2 * i]
      invariant player == Popped(s, i, 51) && dealer == Popped(s, i, 50)
    {
      player := player + [rest[|rest| - 1]];
      dealer := dealer + [rest[|rest| - 2]];
      rest := rest[..|rest| - 2];
      i := i + 1;
    }
  }

  /** Both hands after the draw, the deck left over, and every card thrown away. */
  datatype Round = Round(player: seq<Card>, dealer: seq<Card>, deck: seq<Card>, discarded: seq<Card>)

  /**
   * `handleDraw`: the player's unheld cards are replaced first, then the
   * dealer's unkept cards from what is left; the dealer's mask is
   * `DealerKeeps` of its hand.
   */
  function DrawRound(player: seq<Card>, held: seq<bool>, dealer: seq<Card>, dealerKeep: seq<bool>,
                     deck: seq<Card>): (r: Round)
    requires |player| == 5 && |held| == 5 && |dealer| == 5 && |dealerKeep| == 5
    ensures |r.player| == 5 && |r.dealer| == 5
  {
    var pr := RedrawFrom(player, held, deck, 0);
    var dr := RedrawFrom(dealer, dealerKeep, pr.deck, 0);
    Round(pr.hand, dr.hand, dr.deck, pr.discarded + dr.discarded)
  }

  /** The loops of `handleDraw`, the dealer's only on a high-card hand. */
  method DrawHands(player: seq<Card>, held: seq<bool>, dealer: seq<Card>, deck: seq<Card>)
    returns (newPlayer: seq<Card>, newDealer: seq<Card>, newDeck: seq<Card>)
    requires |player| == 5 && |held| == 5 && |dealer| == 5
    ensures var r := DrawRound(player, held, dealer, DealerKeeps(dealer), deck);
      newPlayer == r.player && newDealer == r.dealer && newDeck == r.deck
  {
    var pr := ReplaceUnheld(player, held, deck, 5);
    newPlayer, newDealer, newDeck := pr.hand, dealer, pr.deck;
    if GetHandResult(dealer).value < HandRankConfig(OnePair).value {
      var dr := ReplaceUnheld(dealer, [false, false, false, true, true], pr.deck, 3);
      newDealer, newDeck := dr.hand, dr.deck;
    } else {
      KeptTail(dealer, DealerKeeps(dealer), pr.deck, 0);
    }
  }

  /** The draw keeps the 52 cards together: deck, hands and discards. */
  lemma DrawRoundConserves(player: seq<Card>, held: seq<bool>, dealer: seq<Card>, dealerKeep: seq<bool>,
                           deck: seq<Card>)
    requires |player| == 5 && |held| == 5 && |dealer| == 5 && |dealerKeep| == 5
    ensures var r := DrawRound(player, held, dealer, dealerKeep, deck);
      multiset(r.deck) + multiset(r.player) + multiset(r.dealer) + multiset(r.discarded)
      == multiset(deck) + multiset(player) + multiset(dealer)
  {
    var pr := RedrawFrom(player, held, deck, 0);
    var dr := RedrawFrom(dealer, dealerKeep, pr.deck, 0);
    RedrawConserves(player, held, deck, 0);
    RedrawConserves(dealer, dealerKeep, pr.deck, 0);
    Chain(multiset(pr.hand), multiset(pr.deck), multiset(pr.discarded), multiset(player), multiset(deck),
          multiset(dr.hand), multiset(dr.deck), multiset(dr.discarded), multiset(dealer));
    assert multiset(pr.discarded + dr.discarded) == multiset(pr.discarded) + multiset(dr.discarded);
  }

  /** The draw, card by card: every card either side holds stays where it is. */
  lemma DrawRoundKeeps(player: seq<Card>, held: seq<bool>, dealer: seq<Card>, dealerKeep: seq<bool>,
                       deck: seq<Card>)
    requires |player| == 5 && |held| == 5 && |dealer| == 5 && |dealerKeep| == 5
    ensures var r := DrawRound(player, held, dealer, dealerKeep, deck);
      && (forall j :: 0 <= j < 5 && held[j] ==> r.player[j] == player[j])
      && (forall j :: 0 <= j < 5 && dealerKeep[j] ==> r.dealer[j] == dealer[j])
  {
    var pr := RedrawFrom(player, held, deck, 0);
    RedrawKeepsHeld(player, held, deck, 0);
    RedrawKeepsHeld(dealer, dealerKeep, pr.deck, 0);
  }

  /**
   * The dealer's side of the draw: its last two cards always stay, and a
   * hand better than high card stays whole.
   */
  lemma DealerDrawKeeps(player: seq<Card>, held: seq<bool>, dealer: seq<Card>, deck: seq<Card>)
    requires |player| == 5 && |held| == 5 && |dealer| == 5
    ensures var r := DrawRound(player, held, dealer, DealerKeeps(dealer), deck);
      && r.dealer[3..] == dealer[3..]
      && (Category(dealer) != HighCard ==> r.dealer == dealer)
  {
    var keep := DealerKeeps(dealer);
    DealerKeepsTail(dealer);
    var r := DrawRound(player, held, dealer, keep, deck);
    DrawRoundKeeps(player, held, dealer, keep, deck);
    assert r.dealer[3..] == dealer[3..];
    if Category(dealer) != HighCard {
      assert r.dealer == dealer;
    }
  }

  /** The dealer's mask keeps its last two cards, and every card of a hand better than high card. */
  lemma DealerKeepsTail(hand: seq<Card>)
    requires |hand| == 5
    ensures DealerKeeps(hand)[3] && DealerKeeps(hand)[4]
    ensures Category(hand) != HighCard ==> forall j :: 0 <= j < 5 ==> DealerKeeps(hand)[j]
  {
    DealerDrawsOnHighCard(hand);
  }

  /** With the 42 cards left after the deal, every unheld card is replaced from the top. */
  lemma DrawRoundTakesTop(player: seq<Card>, held: seq<bool>, dealer: seq<Card>, dealerKeep: seq<bool>,
                          deck: seq<Card>)
    requires |player| == 5 && |held| == 5 && |dealer| == 5 && |dealerKeep| == 5 && |deck| == 42
    ensures var r := DrawRound(player, held, dealer, dealerKeep, deck);
      && r.deck == deck[..|r.deck|]
      && |r.deck| == 42 - Unheld(held, 0) - Unheld(dealerKeep, 0)
  {
    var pr := RedrawFrom(player, held, deck, 0);
    RedrawTakesTop(player, held, deck, 0);
    UnheldAtMost(held, 0);
    RedrawTakesTop(dealer, dealerKeep, pr.deck, 0);
    UnheldAtMost(dealerKeep, 0);
    var r := DrawRound(player, held, dealer, dealerKeep, deck);
    assert deck[..|pr.deck|][..|r.deck|] == deck[..|r.deck|];
  }

  lemma {:induction false} UnheldAtMost(keep: seq<bool>, i: nat)
    requires i <= |keep|
    ensures Unheld(keep, i) <= |keep| - i
    decreases |keep| - i
  {
    if i < |keep| {
      UnheldAtMost(keep, i + 1);
    }
  }
}
