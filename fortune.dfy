/**
 * The fortune apple: a play costs the bet up front; the fortune generator
 * then either answers with a fortune and a prize per credit bet, which is
 * paid out multiplied by the bet, or fails, and the bet is refunded.
 * The generator is outside the model: its answer is an input.
 */
module Fortune {
  import opened Wrappers
  import opened Betting

  datatype GameState = Ready | Loading | Revealed

  /** What the generator answers: a fortune text and a prize (per credit bet, or already multiplied). */
  datatype FortuneResult = FortuneResult(fortune: string, prize: int)

  /** How a request to the generator ends. */
  datatype Outcome = Found(answer: FortuneResult) | Failed

  /** The credits a finished request returns to the player: the prize times the bet, or the bet itself. */
  function Returned(bet: int, outcome: Outcome): (amount: int)
    ensures outcome.Failed? ==> amount == bet
    ensures outcome.Found? ==> amount == outcome.answer.prize * bet
  {
    match outcome
    case Found(answer) => answer.prize * bet
    case Failed => bet
  }

  /** Over one play, a failure leaves the balance as it was and a fortune changes it by prize times bet minus the bet. */
  lemma PlayNet(credits: int, bet: int, outcome: Outcome)
    ensures outcome.Failed? ==> credits - bet + Returned(bet, outcome) == credits
    ensures outcome.Found? ==>
      credits - bet + Returned(bet, outcome) == credits + (outcome.answer.prize - 1) * bet
  {
  }

  /** The card's state, with the shared credit balance. */
  class FortuneApple {
    var credits: int
    var gameState: GameState
    var result: Option<FortuneResult>
    var betAmount: int
    /**
     * The bets of the requests still awaiting the generator, each as it was
     * when its play began. Usually at most one; "Play Again" during loading
     * brings back the play button, so two can overlap.
     */
    var pending: seq<int>

    ghost predicate Valid()
      reads this
    {
      && betAmount >= 1
      && (forall k :: 0 <= k < |pending| ==> pending[k] >= 1)
      && (gameState == Loading ==> pending != [])
    }

    constructor(initialCredits: int)
      ensures Valid()
      ensures credits == initialCredits && gameState == Ready && result.None?
      ensures betAmount == 1 && pending == []
    {
      credits := initialCredits;
      gameState := Ready;
      result := None;
      betAmount := 1;
      pending := [];
    }

    /** The bet input: `Math.max(1, parseInt(value) || 0)`. */
    method SetBet(parsed: Option<int>)
      requires Valid()
      modifies this
      ensures Valid()
      ensures betAmount == ClampBet(parsed)
      ensures credits == old(credits) && gameState == old(gameState) && result == old(result)
      ensures pending == old(pending)
    {
      betAmount := ClampBet(parsed);
    }

    /**
     * `handlePlay` up to the generator call: with too few credits nothing
     * changes; otherwise the bet is debited, the state becomes loading and
     * the old result is cleared.
     */
    method Play() returns (started: bool)
      requires Valid()
      modifies this
      ensures Valid()
      ensures started <==> old(credits) >= old(betAmount)
      ensures betAmount == old(betAmount)
      ensures !started ==>
        credits == old(credits) && gameState == old(gameState) && result == old(result)
        && pending == old(pending)
      ensures started ==>
        credits == old(credits) - betAmount && gameState == Loading && result.None?
        && pending == old(pending) + [betAmount]
    {
      if credits < betAmount {
        return false;
      }
      credits := credits - betAmount;
      gameState := Loading;
      result := None;
      pending := pending + [betAmount];
      started := true;
    }

    /**
     * The rest of `handlePlay` once the generator answers request `k`: a
     * fortune shows its prize times the bet and credits it; a failure
     * refunds the bet and goes back to ready.
     */
    method Resolve(k: nat, outcome: Outcome)
      requires Valid() && k < |pending|
      modifies this
      ensures Valid()
      ensures var bet := old(pending[k]);
        && credits == old(credits) + Returned(bet, outcome)
        && pending == old(pending[..k] + pending[k + 1..])
        && betAmount == old(betAmount)
        && (outcome.Found? ==>
              gameState == Revealed
              && result == Some(FortuneResult(outcome.answer.fortune, outcome.answer.prize * bet)))
        && (outcome.Failed? ==> gameState == Ready && result == old(result))
    {
      var bet := pending[k];
      pending := pending[..k] + pending[k + 1..];
      match outcome
      case Found(answer) =>
        var prize := answer.prize * bet;
        result := Some(FortuneResult(answer.fortune, prize));
        credits := credits + prize;
        gameState := Revealed;
      case Failed =>
        credits := credits + bet;
        gameState := Ready;
    }

    /** `handlePlayAgain`: back to ready, with no result shown. */
    method PlayAgain()
      requires Valid()
      modifies this
      ensures Valid()
      ensures gameState == Ready && result.None?
      ensures credits == old(credits) && betAmount == old(betAmount) && pending == old(pending)
    {
      gameState := Ready;
      result := None;
    }
  }
}
