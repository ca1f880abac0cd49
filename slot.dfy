/**
 * The slot machine: three reels, each an arrangement of the six symbols;
 * a spin costs 10 credits and pays when the top symbol of all three reels
 * is the same.
 */
module Slot {
  import opened Wrappers

  datatype Symbol = Cherry | Bell | Clover | Diamond | Star | Seven

  /** The symbol list, in its declared order. */
  const Symbols: seq<Symbol> := [Cherry, Bell, Clover, Diamond, Star, Seven]

  /** The price of a spin. */
  const SpinCost := 10

  /**
   * `[...symbols].sort(() => Math.random() - 0.5)`. The comparator's
   * answers are an input: `before(i, j)` says whether, while placing the
   * i-th element, it goes in front of the element at position j. The sort
   * is an insertion sort driven by those answers.
   */
  function RandomOrder<T>(s: seq<T>, before: (nat, nat) -> bool): (r: seq<T>)
    ensures |r| == |s| && multiset(r) == multiset(s)
  {
    if s == [] then []
    else
      var placed := RandomOrder(s[..|s| - 1], before);
      assert s == s[..|s| - 1] + [s[|s| - 1]];
      Insert(placed, s[|s| - 1], |s| - 1, before)
  }

  /** Places `x` into `placed`, walking leftwards while the comparator says it goes first. */
  function Insert<T>(placed: seq<T>, x: T, i: nat, before: (nat, nat) -> bool): (r: seq<T>)
    ensures |r| == |placed| + 1 && multiset(r) == multiset(placed) + multiset{x}
  {
    if placed != [] && before(i, |placed| - 1) then
      var last := placed[|placed| - 1];
      assert placed == placed[..|placed| - 1] + [last];
      Insert(placed[..|placed| - 1], x, i, before) + [last]
    else placed + [x]
  }

  /** A reel shows all six symbols in six places, so each of them exactly once. */
  predicate IsReel(reel: seq<Symbol>)
  {
    && |reel| == 6
    && Cherry in reel && Bell in reel && Clover in reel
    && Diamond in reel && Star in reel && Seven in reel
  }

  /** Every symbol is on every reel. */
  lemma OnEveryReel(reel: seq<Symbol>, s: Symbol)
    requires IsReel(reel)
    ensures s in reel
  {
  }

  lemma AllSymbolsListed(s: Symbol)
    ensures s in Symbols
  {
    match s
    case Cherry => assert Symbols[0] == s;
    case Bell => assert Symbols[1] == s;
    case Clover => assert Symbols[2] == s;
    case Diamond => assert Symbols[3] == s;
    case Star => assert Symbols[4] == s;
    case Seven => assert Symbols[5] == s;
  }

  /** A rearrangement of the symbol list is a reel. */
  lemma PermutedReel(r: seq<Symbol>, all: seq<Symbol>)
    requires all == Symbols && |r| == |all| && multiset(r) == multiset(all)
    ensures IsReel(r)
  {
    forall s: Symbol
      ensures s in r
    {
      AllSymbolsListed(s);
      assert s in multiset(all);
    }
    assert Cherry in r && Bell in r && Clover in r;
  }

  /** Whatever the comparator answers, a shuffled symbol list is a permutation of it, hence a reel. */
  lemma ShuffledReel(before: (nat, nat) -> bool)
    ensures multiset(RandomOrder(Symbols, before)) == multiset(Symbols)
    ensures IsReel(RandomOrder(Symbols, before))
  {
    PermutedReel(RandomOrder(Symbols, before), Symbols);
  }

  /** The three reels, left to right. */
  datatype Reels = Reels(left: seq<Symbol>, middle: seq<Symbol>, right: seq<Symbol>)

  predicate AreReels(r: Reels)
  {
    IsReel(r.left) && IsReel(r.middle) && IsReel(r.right)
  }

  /** Three freshly shuffled reels, one comparator per reel: every reel is a permutation of the symbol list. */
  method ShuffleReels(left: (nat, nat) -> bool, middle: (nat, nat) -> bool, right: (nat, nat) -> bool)
    returns (reels: Reels)
    ensures AreReels(reels)
  {
    ShuffledReel(left);
    ShuffledReel(middle);
    ShuffledReel(right);
    reels := Reels(RandomOrder(Symbols, left), RandomOrder(Symbols, middle), RandomOrder(Symbols, right));
  }

  /** The credits a line of three equal symbols pays. */
  function Prize(s: Symbol): (amount: int)
    ensures amount > 0
  {
    match s
    case Cherry => 10
    case Bell => 20
    case Clover => 50
    case Diamond => 100
    case Star => 200
    case Seven => 500
  }

  /** The payout table is strictly increasing in the declared symbol order. */
  lemma PrizeFollowsSymbolOrder()
    ensures forall i, j :: 0 <= i < j < |Symbols| ==> Prize(Symbols[i]) < Prize(Symbols[j])
  {
  }

  /** The line: the top symbol of each reel. */
  function Line(r: Reels): seq<Symbol>
    requires AreReels(r)
  {
    [r.left[0], r.middle[0], r.right[0]]
  }

  /** `checkWin`: the amount won, 0 unless the whole line shows one symbol. */
  function WinAmount(r: Reels): (amount: int)
    requires AreReels(r)
    ensures amount >= 0
    ensures amount > 0 <==> r.left[0] == r.middle[0] == r.right[0]
    ensures amount > 0 ==> amount == Prize(r.left[0])
  {
    var line := Line(r);
    if forall k :: 0 <= k < |line| ==> line[k] == line[0] then
      assert line[1] == line[0] && line[2] == line[0];
      Prize(line[0])
    else
      assert line[1] != line[0] || line[2] != line[0];
      0
  }

  /** The slot machine's state, including the shared credit balance. */
  class SlotMachine {
    var credits: int
    /** None until the mount effect has shuffled the reels. */
    var reels: Option<Reels>
    var spinning: bool
    var lastWin: Option<int>

    /** The balance never goes negative; reels hold every symbol; a spin is in progress only with reels. */
    ghost predicate Valid()
      reads this
    {
      && credits >= 0
      && (reels.Some? ==> AreReels(reels.value))
      && (spinning ==> reels.Some?)
    }

    constructor(initialCredits: int)
      requires initialCredits >= 0
      ensures Valid()
      ensures credits == initialCredits && reels.None? && !spinning && lastWin.None?
    {
      credits := initialCredits;
      reels := None;
      spinning := false;
      lastWin := None;
    }

    /** The mount effect: three shuffled reels. */
    method InitReels(left: (nat, nat) -> bool, middle: (nat, nat) -> bool, right: (nat, nat) -> bool)
      requires Valid() && !spinning
      modifies this
      ensures Valid()
      ensures reels.Some? && AreReels(reels.value)
      ensures credits == old(credits) && spinning == old(spinning) && lastWin == old(lastWin)
    {
      var newReels := ShuffleReels(left, middle, right);
      reels := Some(newReels);
    }

    /**
     * `handleSpin`: below the cost nothing happens; otherwise the cost is
     * debited, the last win cleared and three new reels dealt. The spin
     * button is disabled while a spin is in progress.
     */
    method Spin(left: (nat, nat) -> bool, middle: (nat, nat) -> bool, right: (nat, nat) -> bool)
      returns (started: bool)
      requires Valid() && !spinning
      modifies this
      ensures Valid()
      ensures started <==> old(credits) >= SpinCost
      ensures !started ==>
        credits == old(credits) && reels == old(reels) && !spinning && lastWin == old(lastWin)
      ensures started ==>
        && credits == old(credits) - SpinCost
        && reels.Some? && AreReels(reels.value)
        && spinning && lastWin.None?
    {
      if credits < SpinCost {
        return false;
      }
      var newReels := ShuffleReels(left, middle, right);
      credits := credits - SpinCost;
      spinning := true;
      lastWin := None;
      reels := Some(newReels);
      started := true;
    }

    /** The timeout after a spin: the spin ends and `checkWin` pays the line. */
    method FinishSpin()
      requires Valid() && spinning
      modifies this
      ensures Valid()
      ensures !spinning && reels == old(reels)
      ensures lastWin == Some(WinAmount(reels.value))
      ensures credits == old(credits) + WinAmount(reels.value)
    {
      spinning := false;
      var amount := WinAmount(reels.value);
      credits := credits + amount;
      lastWin := Some(amount);
    }
  }
}
