/**
 * The dice roller: `numDice` dice with `numSides` sides each, and a bet
 * that the total is High (11 or more) or Low (under 11).
 * `Math.random()` is an input: one real in [0, 1) per die.
 */
module Dice {
  import opened Wrappers

  datatype BetType = High | Low

  /** The threshold of the two bets. */
  const HighFrom := 11

  predicate IsUnit(u: real)
  {
    0.0 <= u < 1.0
  }

  predicate AllUnit(rand: seq<real>)
  {
    forall k :: 0 <= k < |rand| ==> IsUnit(rand[k])
  }

  /** One die: `Math.floor(Math.random() * numSides) + 1`. */
  function Face(u: real, sides: int): (face: int)
    requires IsUnit(u) && sides >= 1
    ensures 1 <= face <= sides
  {
    assert u * sides as real < sides as real;
    (u * sides as real).Floor + 1
  }

  /** The dice faces one input sequence produces, in rolling order. */
  function Faces(rand: seq<real>, sides: int): (faces: seq<int>)
    requires AllUnit(rand) && sides >= 1
    ensures |faces| == |rand|
    ensures forall k :: 0 <= k < |faces| ==> 1 <= faces[k] <= sides
  {
    seq(|rand|, k requires 0 <= k < |rand| => Face(rand[k], sides))
  }

  /** The sum of the faces, added in rolling order. */
  function Sum(faces: seq<int>): int
  {
    if faces == [] then 0 else Sum(faces[..|faces| - 1]) + faces[|faces| - 1]
  }

  /** A total lies between one pip per die and `sides` pips per die. */
  lemma {:induction false} SumBounds(faces: seq<int>, sides: int)
    requires forall k :: 0 <= k < |faces| ==> 1 <= faces[k] <= sides
    ensures |faces| <= Sum(faces) <= sides * |faces|
  {
    if faces != [] {
      SumBounds(faces[..|faces| - 1], sides);
    }
  }

  /** Whether a bet wins on a total. */
  function Wins(bet: BetType, total: int): (win: bool)
    ensures bet == High ==> (win <==> total >= HighFrom)
    ensures bet == Low ==> (win <==> total < HighFrom)
  {
    match bet
    case High => total >= 11
    case Low => total < 11
  }

  /** Whatever the total, exactly one of the two bets wins. */
  lemma ExactlyOneBetWins(total: int)
    ensures Wins(High, total) != Wins(Low, total)
  {
  }

  /** With too few pips on the table, High cannot win; with too many, Low cannot. */
  lemma OutOfReach(rand: seq<real>, sides: int)
    requires AllUnit(rand) && sides >= 1
    ensures sides * |rand| < HighFrom ==> !Wins(High, Sum(Faces(rand, sides)))
    ensures |rand| >= HighFrom ==> !Wins(Low, Sum(Faces(rand, sides)))
  {
    SumBounds(Faces(rand, sides), sides);
  }

  /** The loop of `handleRoll`: one face per die, pushed and added to the running total. */
  method RollDice(rand: seq<real>, sides: int) returns (results: seq<int>, total: int)
    requires AllUnit(rand) && sides >= 1
    ensures results == Faces(rand, sides)
    ensures |results| == |rand| && forall k :: 0 <= k < |results| ==> 1 <= results[k] <= sides
    ensures total == Sum(results)
  {
    results := [];
    total := 0;
    var i := 0;
    while i < |rand|
      invariant 0 <= i <= |rand|
      invariant results == Faces(rand[..i], sides)
      invariant total == Sum(results)
    {
      var roll := Face(rand[i], sides);
      assert Faces(rand[..i + 1], sides) == results + [roll];
      results := results + [roll];
      total := total + roll;
      i := i + 1;
    }
    assert rand[..i] == rand;
  }

  /** The dice card's state. */
  class DiceRoller {
    var numDice: int
    var numSides: int
    var results: seq<int>
    var total: Option<int>
    var winStatus: Option<bool>
    var betType: Option<BetType>

    /** The number inputs never go below one die and two sides; a shown total is the sum of the shown dice. */
    ghost predicate Valid()
      reads this
    {
      && numDice >= 1 && numSides >= 2
      && (total.Some? ==> total.value == Sum(results))
      && (winStatus.Some? ==> total.Some?)
    }

    constructor()
      ensures Valid()
      ensures numDice == 2 && numSides == 6 && results == [] && total.None?
      ensures winStatus.None? && betType.None?
    {
      numDice, numSides := 2, 6;
      results, total, winStatus, betType := [], None, None, None;
    }

    /** The dice-count input: `Math.max(1, parseInt(value))`. */
    method SetNumDice(parsed: int)
      requires Valid()
      modifies this
      ensures Valid()
      ensures numDice == if parsed > 1 then parsed else 1
      ensures numSides == old(numSides) && results == old(results) && total == old(total)
      ensures winStatus == old(winStatus) && betType == old(betType)
    {
      numDice := if parsed > 1 then parsed else 1;
    }

    /** The sides input: `Math.max(2, parseInt(value))`. */
    method SetNumSides(parsed: int)
      requires Valid()
      modifies this
      ensures Valid()
      ensures numSides == if parsed > 2 then parsed else 2
      ensures numDice == old(numDice) && results == old(results) && total == old(total)
      ensures winStatus == old(winStatus) && betType == old(betType)
    {
      numSides := if parsed > 2 then parsed else 2;
    }

    /** The radio group picks a bet. */
    method SetBetType(bet: BetType)
      requires Valid()
      modifies this
      ensures Valid()
      ensures betType == Some(bet)
      ensures numDice == old(numDice) && numSides == old(numSides) && results == old(results)
      ensures total == old(total) && winStatus == old(winStatus)
    {
      betType := Some(bet);
    }

    /**
     * `handleRoll`: with no bet nothing is rolled; otherwise one face per
     * die, their total, and whether the bet wins on that total.
     */
    method Roll(rand: seq<real>)
      requires Valid() && |rand| == numDice && AllUnit(rand)
      modifies this
      ensures Valid()
      ensures numDice == old(numDice) && numSides == old(numSides) && betType == old(betType)
      ensures old(betType).None? ==>
        results == old(results) && total == old(total) && winStatus == old(winStatus)
      ensures old(betType).Some? ==>
        && results == Faces(rand, numSides)
        && total == Some(Sum(results))
        && winStatus == Some(Wins(betType.value, total.value))
    {
      if betType.None? {
        return;
      }
      var newResults, newTotal := RollDice(rand, numSides);
      results := newResults;
      total := Some(newTotal);
      winStatus := Some(Wins(betType.value, newTotal));
    }
  }
}
