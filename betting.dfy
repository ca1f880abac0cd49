/** Notions shared by the wager games: the bet input and the outcome of a head-to-head round. */
module Betting {
  import opened Wrappers

  /** Outcome of a blackjack or versus-poker round. */
  datatype Winner = Player | Dealer | Push

  /**
   * The bet input's change handler: `Math.max(1, parseInt(value) || 0)`.
   * `parsed` is the integer `parseInt` produced, or None when it produced NaN.
   */
  function ClampBet(parsed: Option<int>): (bet: int)
    ensures bet >= 1
    ensures parsed.Some? && parsed.value >= 1 ==> bet == parsed.value
    ensures (parsed.None? || parsed.value < 1) ==> bet == 1
  {
    match parsed
    case None => 1
    case Some(v) => if v > 1 then v else 1
  }
}
