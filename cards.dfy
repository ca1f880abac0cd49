/**
 * The deck engine shared by the blackjack and versus-poker tables: the
 * 52-card deck built suit by suit, and the Fisher–Yates shuffle that both
 * tables run on a copy of it.
 */
module Cards {

  datatype Suit = Spades | Hearts | Diamonds | Clubs

  /**
   * A rank is its position in the tables' `ranks` list
   * ['2', '3', ..., '10', 'J', 'Q', 'K', 'A']; this is also the value the
   * poker evaluator compares (`ranks.indexOf(rank)`).
   */
  type Rank = r: int | 0 <= r < 13

  const Five: Rank := 3
  const Nine: Rank := 7
  const Ten: Rank := 8
  const Jack: Rank := 9
  const Queen: Rank := 10
  const King: Rank := 11
  const Ace: Rank := 12

  datatype Card = Card(suit: Suit, rank: Rank)

  /** The tables' `suits` list, in its order. */
  const Suits: seq<Suit> := [Spades, Hearts, Diamonds, Clubs]

  function SuitIndex(s: Suit): (k: nat)
    ensures k < 4 && Suits[k] == s
  {
    match s
    case Spades => 0
    case Hearts => 1
    case Diamonds => 2
    case Clubs => 3
  }

  /** Position of a card in the freshly created deck. */
  function DeckIndex(c: Card): nat
  {
    13 * SuitIndex(c.suit) + c.rank
  }

  /** `ranks.map(rank => ({ suit, rank }))` for one suit. */
  function SuitRow(s: Suit): (row: seq<Card>)
    ensures |row| == 13
    ensures forall r: Rank :: row[r] == Card(s, r)
  {
    seq(13, (r: int) requires 0 <= r < 13 => Card(s, r))
  }

  /** `suits.flatMap(suit => ranks.map(rank => ({ suit, rank })))`. */
  function CreateDeck(): (deck: seq<Card>)
    ensures |deck| == 52
  {
    SuitRow(Spades) + SuitRow(Hearts) + SuitRow(Diamonds) + SuitRow(Clubs)
  }

  /**
   * Every card sits at its DeckIndex in the fresh deck, so the deck holds
   * each of the 52 (suit, rank) pairs exactly once.
   */
  lemma CreateDeckPositions()
    ensures forall c: Card :: DeckIndex(c) < 52 && CreateDeck()[DeckIndex(c)] == c
    ensures forall i :: 0 <= i < 52 ==> DeckIndex(CreateDeck()[i]) == i
  {
    var d := CreateDeck();
    assert forall i :: 0 <= i < 13 ==> d[i] == Card(Spades, i);
    assert forall i :: 13 <= i < 26 ==> d[i] == Card(Hearts, i - 13);
    assert forall i :: 26 <= i < 39 ==> d[i] == Card(Diamonds, i - 26);
    assert forall i :: 39 <= i < 52 ==> d[i] == Card(Clubs, i - 39);
  }

  /** A sequence in which `x` occurs at position `k` only holds it once. */
  lemma {:induction false} OccursOnce<T>(s: seq<T>, k: nat)
    requires k < |s|
    requires forall i :: 0 <= i < |s| && i != k ==> s[i] != s[k]
    ensures multiset(s)[s[k]] == 1
  {
    var x := s[k];
    assert s == s[..k] + [x] + s[k + 1..];
    assert x !in s[..k];
    assert x !in s[k + 1..];
    assert multiset(s[..k])[x] == 0 && multiset(s[k + 1..])[x] == 0;
  }

  /** The multiset of a fresh deck: each card exactly once. */
  lemma FullDeckOnce(c: Card)
    ensures multiset(CreateDeck())[c] == 1
  {
    var d := CreateDeck();
    CreateDeckPositions();
    var k := DeckIndex(c);
    forall i | 0 <= i < |d| && i != k
      ensures d[i] != d[k]
    {
      assert DeckIndex(d[i]) == i;
    }
    OccursOnce(d, k);
  }

  // ---------------------------------------------------------------------
  // Fisher–Yates shuffle

  /** A value of `Math.random()`. */
  predicate IsUnit(u: real)
  {
    0.0 <= u < 1.0
  }

  predicate AllUnit(rand: seq<real>)
  {
    forall k :: 0 <= k < |rand| ==> IsUnit(rand[k])
  }

  /** `Math.floor(Math.random() * (i + 1))`: an index in 0..i. */
  function SwapIndex(u: real, i: nat): (j: nat)
    requires IsUnit(u)
    ensures j <= i
  {
    var n := (i + 1) as real;
    assert 0.0 <= u * n;
    assert u * n < n by {
      assert (1.0 - u) * n > 0.0;
    }
    (u * n).Floor
  }

  function Swap<T>(s: seq<T>, i: nat, j: nat): (r: seq<T>)
    requires i < |s| && j < |s|
    ensures |r| == |s|
  {
    s[i := s[j]][j := s[i]]
  }

  lemma SwapPermutes<T>(s: seq<T>, i: nat, j: nat)
    requires i < |s| && j < |s|
    ensures multiset(Swap(s, i, j)) == multiset(s)
  {
  }

  /**
   * The rest of the shuffle loop, from index `i` down to 1: `rand[i]` is the
   * value `Math.random()` returned when the loop was at index `i`.
   */
  function ShuffleFrom<T>(s: seq<T>, rand: seq<real>, i: nat): seq<T>
    requires i < |s| && |rand| == |s| && AllUnit(rand)
    decreases i
  {
    if i == 0 then s
    else ShuffleFrom(Swap(s, i, SwapIndex(rand[i], i)), rand, i - 1)
  }

  /** What `shuffleDeck` returns for the random draws `rand`. */
  function Shuffle<T>(s: seq<T>, rand: seq<real>): seq<T>
    requires |rand| == |s| && AllUnit(rand)
  {
    if |s| == 0 then s else ShuffleFrom(s, rand, |s| - 1)
  }

  lemma {:induction false} ShuffleFromPermutes<T>(s: seq<T>, rand: seq<real>, i: nat)
    requires i < |s| && |rand| == |s| && AllUnit(rand)
    ensures |ShuffleFrom(s, rand, i)| == |s|
    ensures multiset(ShuffleFrom(s, rand, i)) == multiset(s)
    decreases i
  {
    if i > 0 {
      var t := Swap(s, i, SwapIndex(rand[i], i));
      ShuffleFromPermutes(t, rand, i - 1);
      assert ShuffleFrom(s, rand, i) == ShuffleFrom(t, rand, i - 1);
      SwapPermutes(s, i, SwapIndex(rand[i], i));
    }
  }

  /** The shuffle only rearranges: same length, same cards, same multiplicities. */
  lemma ShufflePermutes<T>(s: seq<T>, rand: seq<real>)
    requires |rand| == |s| && AllUnit(rand)
    ensures |Shuffle(s, rand)| == |s|
    ensures multiset(Shuffle(s, rand)) == multiset(s)
  {
    if |s| > 0 {
      ShuffleFromPermutes(s, rand, |s| - 1);
    }
  }

  /** Every one of the 52 cards occurs, and none twice. */
  ghost predicate EachCardOnce(cards: seq<Card>)
  {
    forall c: Card :: multiset(cards)[c] == 1
  }

  /** A shuffled fresh deck still holds each of the 52 cards exactly once. */
  lemma ShuffledDeckIsFull(rand: seq<real>)
    requires |rand| == 52 && AllUnit(rand)
    ensures |Shuffle(CreateDeck(), rand)| == 52
    ensures EachCardOnce(Shuffle(CreateDeck(), rand))
  {
    ShufflePermutes(CreateDeck(), rand);
    forall c: Card
      ensures multiset(Shuffle(CreateDeck(), rand))[c] == 1
    {
      FullDeckOnce(c);
    }
  }

  /** One turn of the shuffle loop: swapping i with its drawn index leaves the rest of the loop to do. */
  lemma SwapStep<T>(before: seq<T>, after: seq<T>, rand: seq<real>, i: nat)
    requires 0 < i < |before| && |rand| == |before| && AllUnit(rand)
    requires after == Swap(before, i, SwapIndex(rand[i], i))
    ensures ShuffleFrom(before, rand, i) == ShuffleFrom(after, rand, i - 1)
  {
  }

  /**
   * The loop of `shuffleDeck`, run in place on the copied array: for i from
   * the last index down to 1, swap element i with element
   * `floor(rand[i] * (i + 1))`.
   */
  method ShuffleInPlace(a: array<Card>, rand: seq<real>)
    requires a.Length > 0 && |rand| == a.Length && AllUnit(rand)
    modifies a
    ensures a[..] == ShuffleFrom(old(a[..]), rand, a.Length - 1)
  {
    var i := a.Length - 1;
    while i > 0
      invariant 0 <= i < a.Length
      invariant ShuffleFrom(a[..], rand, i) == ShuffleFrom(old(a[..]), rand, a.Length - 1)
      decreases i
    {
      var j := SwapIndex(rand[i], i);
      ghost var before := a[..];
      a[i], a[j] := a[j], a[i];
      SwapStep(before, a[..], rand, i);
      i := i - 1;
    }
  }

  /**
   * `shuffleDeck`: shuffles a fresh copy of the deck; the input deck is a
   * value and is not changed. The result is a permutation of the input.
   */
  method ShuffleDeck(deck: seq<Card>, rand: seq<real>) returns (shuffled: seq<Card>)
    requires |rand| == |deck| && AllUnit(rand)
    ensures shuffled == Shuffle(deck, rand)
    ensures multiset(shuffled) == multiset(deck)
  {
    ShufflePermutes(deck, rand);
    if |deck| == 0 {
      return deck;
    }
    var a := new Card[|deck|](k requires 0 <= k < |deck| => deck[k]);
    assert a[..] == deck;
    ShuffleInPlace(a, rand);
    shuffled := a[..];
  }
}
