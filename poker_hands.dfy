/**
 * The five-card hand evaluator of the versus-poker table (`getHandResult`):
 * the category of a hand with its `handRankConfig` value, and the tie-break
 * ranks used at showdown. The evaluator works on rank positions 0..12
 * (2 lowest, Ace highest), as the source does.
 */
module PokerHands {
  import opened Cards

  datatype HandRank =
    | HighCard | OnePair | TwoPair | ThreeOfAKind | Straight
    | Flush | FullHouse | FourOfAKind | StraightFlush | RoyalFlush

  datatype RankConfig = RankConfig(value: int, payout: int)

  /** `handRankConfig`: each category's comparison value and its pay-table multiplier. */
  function HandRankConfig(r: HandRank): (c: RankConfig)
    ensures 1 <= c.value <= 10 && 0 <= c.payout <= 250
  {
    match r
    case RoyalFlush => RankConfig(10, 250)
    case StraightFlush => RankConfig(9, 50)
    case FourOfAKind => RankConfig(8, 25)
    case FullHouse => RankConfig(7, 9)
    case Flush => RankConfig(6, 6)
    case Straight => RankConfig(5, 4)
    case ThreeOfAKind => RankConfig(4, 3)
    case TwoPair => RankConfig(3, 2)
    case OnePair => RankConfig(2, 1)
    case HighCard => RankConfig(1, 0)
  }

  /**
   * The table is a strict order: distinct categories have distinct values,
   * and a higher value always pays more.
   */
  lemma ConfigIsStrictOrder(a: HandRank, b: HandRank)
    ensures HandRankConfig(a).value == HandRankConfig(b).value <==> a == b
    ensures HandRankConfig(a).value < HandRankConfig(b).value
        <==> HandRankConfig(a).payout < HandRankConfig(b).payout
  {
  }

  /** The result record of `getHandResult`. */
  datatype HandResult = HandResult(rank: HandRank, value: int, hand: seq<Card>, tieBreakerRanks: seq<int>)

  // ---------------------------------------------------------------------
  // Sequences of rank values

  /** `hand.map(c => rankToValue(c.rank))` */
  function Ranks(hand: seq<Card>): (rs: seq<int>)
    ensures |rs| == |hand|
    ensures forall i :: 0 <= i < |hand| ==> rs[i] == hand[i].rank
  {
    seq(|hand|, (i: int) requires 0 <= i < |hand| => hand[i].rank as int)
  }

  predicate Desc(s: seq<int>)
  {
    forall i, j :: 0 <= i < j < |s| ==> s[i] >= s[j]
  }

  predicate NoDup(s: seq<int>)
  {
    forall i, j :: 0 <= i < j < |s| ==> s[i] != s[j]
  }

  function Reverse(s: seq<int>): (r: seq<int>)
    ensures |r| == |s|
    ensures forall i :: 0 <= i < |s| ==> r[i] == s[|s| - 1 - i]
  {
    seq(|s|, (i: int) requires 0 <= i < |s| => s[|s| - 1 - i])
  }

  function Insert(x: int, s: seq<int>): (r: seq<int>)
    ensures |r| == |s| + 1
  {
    if s == [] || x >= s[0] then [x] + s else [s[0]] + Insert(x, s[1..])
  }

  /** `sort((a, b) => b - a)` on numbers: descending order. */
  function SortDesc(s: seq<int>): (r: seq<int>)
    ensures |r| == |s|
  {
    if s == [] then [] else Insert(s[0], SortDesc(s[1..]))
  }

  lemma {:induction false} InsertPermutes(x: int, s: seq<int>)
    ensures multiset(Insert(x, s)) == multiset(s) + multiset{x}
  {
    if s != [] && x < s[0] {
      InsertPermutes(x, s[1..]);
      assert s == [s[0]] + s[1..];
    }
  }

  lemma {:induction false} SortDescPermutes(s: seq<int>)
    ensures multiset(SortDesc(s)) == multiset(s)
  {
    if s != [] {
      SortDescPermutes(s[1..]);
      InsertPermutes(s[0], SortDesc(s[1..]));
      assert s == [s[0]] + s[1..];
    }
  }

  /** The head of a descending sequence is its largest element. */
  lemma DescHead(s: seq<int>, x: int)
    requires Desc(s) && x in multiset(s)
    ensures s[0] >= x
  {
    assert x in s;
  }

  lemma DescTail(s: seq<int>)
    requires Desc(s) && s != []
    ensures Desc(s[1..])
  {
  }

  /** No element of `s` exceeds `x`. */
  predicate AtMost(s: seq<int>, x: int)
  {
    forall k :: 0 <= k < |s| ==> s[k] <= x
  }

  lemma DescCons(x: int, t: seq<int>)
    requires Desc(t) && AtMost(t, x)
    ensures Desc([x] + t)
  {
    var r := [x] + t;
    forall i, j | 0 <= i < j < |r|
      ensures r[i] >= r[j]
    {
      assert r[j] == t[j - 1];
      if i > 0 {
        assert r[i] == t[i - 1];
      }
    }
  }

  /** The bound survives dropping elements (`sub` is contained in `s`). */
  lemma AtMostSub(sub: seq<int>, s: seq<int>, x: int)
    requires multiset(sub) <= multiset(s) && AtMost(s, x)
    ensures AtMost(sub, x)
  {
    forall k | 0 <= k < |sub|
      ensures sub[k] <= x
    {
      assert sub[k] in multiset(sub);
      assert sub[k] in multiset(s);
      var m :| 0 <= m < |s| && s[m] == sub[k];
    }
  }

  lemma DescTailAtMost(s: seq<int>)
    requires Desc(s) && s != []
    ensures Desc(s[1..]) && AtMost(s[1..], s[0])
  {
  }

  lemma {:induction false} InsertDesc(x: int, s: seq<int>)
    requires Desc(s)
    ensures Desc(Insert(x, s))
  {
    if s == [] || x >= s[0] {
      if s != [] {
        assert AtMost(s, s[0]);
      }
      DescCons(x, s);
    } else {
      DescTailAtMost(s);
      InsertDesc(x, s[1..]);
      InsertPermutes(x, s[1..]);
      var t := Insert(x, s[1..]);
      assert AtMost(s[1..] + [x], s[0]);
      assert multiset(s[1..] + [x]) == multiset(t);
      AtMostSub(t, s[1..] + [x], s[0]);
      DescCons(s[0], t);
    }
  }

  /** The descending sort yields a descending permutation of its input. */
  lemma {:induction false} SortDescSorted(s: seq<int>)
    ensures Desc(SortDesc(s))
    ensures multiset(SortDesc(s)) == multiset(s)
  {
    SortDescPermutes(s);
    if s != [] {
      SortDescSorted(s[1..]);
      InsertDesc(s[0], SortDesc(s[1..]));
    }
  }

  /** Two descending sequences with the same elements are equal. */
  lemma {:induction false} DescUnique(a: seq<int>, b: seq<int>)
    requires Desc(a) && Desc(b) && multiset(a) == multiset(b)
    ensures a == b
    decreases |a|
  {
    assert |a| == |multiset(a)| == |b|;
    if a != [] {
      assert a[0] in multiset(a) && b[0] in multiset(b);
      DescHead(b, a[0]);
      DescHead(a, b[0]);
      var x := a[0];
      assert x == b[0];
      assert a == [x] + a[1..] && b == [x] + b[1..];
      assert multiset(a[1..]) == multiset(a) - multiset{x};
      assert multiset(b[1..]) == multiset(b) - multiset{x};
      assert multiset(a[1..]) == multiset(b[1..]);
      DescTail(a);
      DescTail(b);
      DescUnique(a[1..], b[1..]);
    }
  }

  /** Sorting depends only on which values occur, and how often. */
  lemma SortDescOfPermutation(a: seq<int>, b: seq<int>)
    requires multiset(a) == multiset(b)
    ensures SortDesc(a) == SortDesc(b)
  {
    SortDescSorted(a);
    SortDescSorted(b);
    DescUnique(SortDesc(a), SortDesc(b));
  }

  /** `[...new Set(s)]`: the distinct values of `s`, in order of first occurrence. */
  function Dedup(s: seq<int>): (r: seq<int>)
    ensures |r| <= |s|
  {
    if s == [] then []
    else
      var p := Dedup(s[..|s| - 1]);
      if s[|s| - 1] in s[..|s| - 1] then p else p + [s[|s| - 1]]
  }

  /** Deduplication keeps a duplicate-free sequence and shortens any other one. */
  lemma {:induction false} DedupLength(s: seq<int>)
    ensures NoDup(s) ==> Dedup(s) == s
    ensures !NoDup(s) ==> |Dedup(s)| < |s|
  {
    if s != [] {
      var init := s[..|s| - 1];
      DedupLength(init);
      if NoDup(s) {
        assert NoDup(init);
        assert s[|s| - 1] !in init;
        assert s == init + [s[|s| - 1]];
      } else if s[|s| - 1] !in init {
        assert !NoDup(init);
      }
    }
  }

  lemma NoDupByCounts(s: seq<int>)
    ensures NoDup(s) <==> forall v :: multiset(s)[v] <= 1
  {
    if NoDup(s) {
      forall v
        ensures multiset(s)[v] <= 1
      {
        if v in s {
          var k :| 0 <= k < |s| && s[k] == v;
          OccursOnce(s, k);
        }
      }
    } else {
      var i, j :| 0 <= i < j < |s| && s[i] == s[j];
      assert s == s[..j] + [s[j]] + s[j + 1..];
      assert s[i] in s[..j];
      assert multiset(s)[s[i]] >= 2;
    }
  }

  /** Every value of `s` is in `Dedup(s)`, once. */
  lemma {:induction false} DedupMembers(s: seq<int>)
    ensures forall v :: v in Dedup(s) <==> v in s
    ensures NoDup(Dedup(s))
  {
    if s != [] {
      var init := s[..|s| - 1];
      DedupMembers(init);
      assert s == init + [s[|s| - 1]];
    }
  }

  predicate StrictAsc(s: seq<int>)
  {
    forall i, j :: 0 <= i < j < |s| ==> s[i] < s[j]
  }

  lemma NoDupOfPermutation(a: seq<int>, b: seq<int>)
    requires multiset(a) == multiset(b) && NoDup(a)
    ensures NoDup(b)
  {
    NoDupByCounts(a);
    NoDupByCounts(b);
  }

  lemma ReverseMembers(s: seq<int>)
    ensures forall v :: v in Reverse(s) <==> v in s
  {
    var u := Reverse(s);
    forall v
      ensures v in u <==> v in s
    {
      if v in u {
        var i :| 0 <= i < |u| && u[i] == v;
        assert s[|s| - 1 - i] == v;
      }
      if v in s {
        var k :| 0 <= k < |s| && s[k] == v;
        assert u[|s| - 1 - k] == v;
      }
    }
  }

  /** A descending sequence without duplicates, reversed, is strictly ascending. */
  lemma ReverseStrict(s: seq<int>)
    requires Desc(s) && NoDup(s)
    ensures StrictAsc(Reverse(s))
  {
    var u := Reverse(s);
    forall i, j | 0 <= i < j < |u|
      ensures u[i] < u[j]
    {
      assert u[i] == s[|s| - 1 - i] && u[j] == s[|s| - 1 - j];
    }
  }

  lemma SortDescMembers(s: seq<int>)
    ensures forall v :: v in SortDesc(s) <==> v in s
  {
    SortDescPermutes(s);
    forall v
      ensures v in SortDesc(s) <==> v in s
    {
      assert v in SortDesc(s) <==> v in multiset(SortDesc(s));
    }
  }

  /**
   * `Object.keys(rankCounts)`: each value of the hand once, ascending,
   * which is `uniqueRanks`.
   */
  lemma UniqueRanksSpec(h: seq<int>)
    ensures forall v :: v in UniqueRanks(h) <==> v in h
    ensures StrictAsc(UniqueRanks(h))
  {
    var d := Dedup(h);
    DedupMembers(h);
    SortDescSorted(d);
    SortDescMembers(d);
    NoDupOfPermutation(d, SortDesc(d));
    ReverseMembers(SortDesc(d));
    ReverseStrict(SortDesc(d));
  }

  /** The keys among `keys` that `vals` holds exactly `n` times, in the order of `keys`. */
  function KeysWithCount(vals: seq<int>, keys: seq<int>, n: nat): seq<int>
  {
    if keys == [] then []
    else (if multiset(vals)[keys[0]] == n then [keys[0]] else []) + KeysWithCount(vals, keys[1..], n)
  }

  lemma {:induction false} KeysWithCountSpec(vals: seq<int>, keys: seq<int>, n: nat)
    ensures forall v :: v in KeysWithCount(vals, keys, n) <==> v in keys && multiset(vals)[v] == n
    ensures StrictAsc(keys) ==> StrictAsc(KeysWithCount(vals, keys, n))
  {
    if keys != [] {
      KeysWithCountSpec(vals, keys[1..], n);
      var rest := KeysWithCount(vals, keys[1..], n);
      assert keys == [keys[0]] + keys[1..];
      if StrictAsc(keys) && multiset(vals)[keys[0]] == n {
        var r := [keys[0]] + rest;
        forall i, j | 0 <= i < j < |r|
          ensures r[i] < r[j]
        {
          assert r[j] == rest[j - 1] && rest[j - 1] in keys[1..];
          if i > 0 {
            assert r[i] == rest[i - 1];
          }
        }
      }
    }
  }

  /**
   * The values with exactly `n` occurrences, ascending: the keys of
   * `rankCounts` whose count is `n`.
   */
  function CountKeys(vals: seq<int>, n: nat): seq<int>
  {
    KeysWithCount(vals, UniqueRanks(vals), n)
  }

  lemma CountKeysSpec(vals: seq<int>, n: nat)
    requires n > 0
    ensures forall v :: v in CountKeys(vals, n) <==> multiset(vals)[v] == n
    ensures StrictAsc(CountKeys(vals, n))
  {
    UniqueRanksSpec(vals);
    KeysWithCountSpec(vals, UniqueRanks(vals), n);
  }

  /** `kickers(excluded)`: the hand's values, in order, without the excluded ones. */
  function Kickers(vals: seq<int>, excl: seq<int>): (ks: seq<int>)
  {
    if vals == [] then []
    else (if vals[0] in excl then [] else [vals[0]]) + Kickers(vals[1..], excl)
  }

  /** Number of values of `vals` that the kicker filter drops. */
  function Dropped(vals: seq<int>, excl: seq<int>): nat
  {
    if vals == [] then 0 else (if vals[0] in excl then 1 else 0) + Dropped(vals[1..], excl)
  }

  lemma {:induction false} KickersLength(vals: seq<int>, excl: seq<int>)
    ensures |Kickers(vals, excl)| == |vals| - Dropped(vals, excl)
  {
    if vals != [] {
      KickersLength(vals[1..], excl);
    }
  }

  lemma {:induction false} KickersCount(vals: seq<int>, excl: seq<int>)
    ensures forall v :: multiset(Kickers(vals, excl))[v] == if v in excl then 0 else multiset(vals)[v]
  {
    if vals != [] {
      KickersCount(vals[1..], excl);
      assert vals == [vals[0]] + vals[1..];
    }
  }

  lemma {:induction false} KickersDesc(vals: seq<int>, excl: seq<int>)
    requires Desc(vals)
    ensures Desc(Kickers(vals, excl))
  {
    if vals != [] {
      DescTailAtMost(vals);
      KickersDesc(vals[1..], excl);
      KickersSub(vals[1..], excl);
      var ks := Kickers(vals[1..], excl);
      if vals[0] !in excl {
        AtMostSub(ks, vals[1..], vals[0]);
        DescCons(vals[0], ks);
      }
    }
  }

  lemma {:induction false} KickersSub(vals: seq<int>, excl: seq<int>)
    ensures multiset(Kickers(vals, excl)) <= multiset(vals)
  {
    if vals != [] {
      KickersSub(vals[1..], excl);
      assert vals == [vals[0]] + vals[1..];
    }
  }

  lemma {:induction false} DroppedOne(vals: seq<int>, a: int)
    ensures Dropped(vals, [a]) == multiset(vals)[a]
  {
    if vals != [] {
      DroppedOne(vals[1..], a);
      assert vals == [vals[0]] + vals[1..];
    }
  }

  lemma {:induction false} DroppedTwo(vals: seq<int>, a: int, b: int)
    requires a != b
    ensures Dropped(vals, [a, b]) == multiset(vals)[a] + multiset(vals)[b]
  {
    if vals != [] {
      DroppedTwo(vals[1..], a, b);
      assert vals == [vals[0]] + vals[1..];
    }
  }

  /** Two different values cannot occur more often, together, than the sequence is long. */
  lemma {:induction false} TwoCountsBound(s: seq<int>, a: int, b: int)
    requires a != b
    ensures multiset(s)[a] + multiset(s)[b] <= |s|
  {
    if s != [] {
      TwoCountsBound(s[1..], a, b);
      assert s == [s[0]] + s[1..];
    }
  }

  lemma {:induction false} ThreeCountsBound(s: seq<int>, a: int, b: int, c: int)
    requires a != b && b != c && a != c
    ensures multiset(s)[a] + multiset(s)[b] + multiset(s)[c] <= |s|
  {
    if s != [] {
      ThreeCountsBound(s[1..], a, b, c);
      assert s == [s[0]] + s[1..];
    }
  }

  // ---------------------------------------------------------------------
  // getHandResult

  /** `handValues`: the hand's rank values, highest first. */
  function HandValues(hand: seq<Card>): seq<int>
  {
    SortDesc(Ranks(hand))
  }

  /** `pairs`: the values held exactly twice, highest first. */
  function Pairs(h: seq<int>): seq<int>
  {
    Reverse(CountKeys(h, 2))
  }

  /** `threes` and `fours`: the values held exactly three and four times. */
  function Threes(h: seq<int>): seq<int>
  {
    CountKeys(h, 3)
  }

  function Fours(h: seq<int>): seq<int>
  {
    CountKeys(h, 4)
  }

  /** `hand.every(card => card.suit === hand[0].suit)` */
  predicate IsFlushCode(hand: seq<Card>)
    requires |hand| > 0
  {
    forall i :: 0 <= i < |hand| ==> hand[i].suit == hand[0].suit
  }

  /**
   * `uniqueRanks`: the distinct values sorted ascending
   * (`[...new Set(handValues)].sort((a, b) => a - b)`); an ascending
   * sort is the reverse of the descending one.
   */
  function UniqueRanks(h: seq<int>): seq<int>
  {
    Reverse(SortDesc(Dedup(h)))
  }

  /** The loop `for (i = 0; i < 4; i++) if (u[i + 1] - u[i] !== 1) return false`, unrolled. */
  predicate StepsOfOne(u: seq<int>)
    requires |u| >= 5
  {
    u[1] - u[0] == 1 && u[2] - u[1] == 1 && u[3] - u[2] == 1 && u[4] - u[3] == 1
  }

  /** The body of `isStraight`, on the ascending distinct values. */
  predicate IsStraightRun(u: seq<int>)
  {
    if |u| < 5 then false
    else if u == [0, 1, 2, 3, 12] then true
    else StepsOfOne(u)
  }

  /** `getStraightHighCard`: the 5 (value 3) when both Ace and 5 are held, else the top value. */
  function StraightHighCard(h: seq<int>): int
    requires |h| > 0
  {
    if Ace in h && 3 in h then 3 else h[0]
  }

  function Result(hand: seq<Card>, rank: HandRank, tieBreak: seq<int>): HandResult
  {
    HandResult(rank, HandRankConfig(rank).value, hand, tieBreak)
  }

  /**
   * The branch `getHandResult` takes: its tests in their order, each
   * naming the category the branch returns.
   */
  function HandCategory(hand: seq<Card>): HandRank
    requires |hand| == 5
  {
    var h := HandValues(hand);
    var pairs := Pairs(h);
    var threes := Threes(h);
    var fours := Fours(h);
    var isFlush := IsFlushCode(hand);
    var isStraight := IsStraightRun(UniqueRanks(h));
    if isStraight && isFlush then
      (if h[0] == Ace && h[4] == Ten then RoyalFlush else StraightFlush)
    else if |fours| > 0 then FourOfAKind
    else if |threes| > 0 && |pairs| > 0 then FullHouse
    else if isFlush then Flush
    else if isStraight then Straight
    else if |threes| > 0 then ThreeOfAKind
    else if |pairs| == 2 then TwoPair
    else if |pairs| == 1 then OnePair
    else HighCard
  }

  /** The `tieBreakerRanks` each branch of `getHandResult` returns. */
  function TieBreakRanks(hand: seq<Card>, rank: HandRank): seq<int>
    requires |hand| == 5 && rank == HandCategory(hand)
  {
    var h := HandValues(hand);
    match rank
    case RoyalFlush | StraightFlush | Straight => [StraightHighCard(h)]
    case FourOfAKind => [Fours(h)[0]] + Kickers(h, Fours(h))
    case FullHouse => [Threes(h)[0], Pairs(h)[0]]
    case ThreeOfAKind => [Threes(h)[0]] + Kickers(h, Threes(h))
    case TwoPair => [Pairs(h)[0], Pairs(h)[1]] + Kickers(h, Pairs(h))
    case OnePair => [Pairs(h)[0]] + Kickers(h, Pairs(h))
    case Flush | HighCard => h
  }

  /** `getHandResult`: the category of a five-card hand and its tie-break ranks. */
  function GetHandResult(hand: seq<Card>): (r: HandResult)
    requires |hand| == 5
    ensures r.value == HandRankConfig(r.rank).value
    ensures r.hand == hand
  {
    var rank := HandCategory(hand);
    Result(hand, rank, TieBreakRanks(hand, rank))
  }

  // ---------------------------------------------------------------------
  // The categories, stated on the cards themselves

  /** How many cards of the hand have rank value `v`. */
  function RankCount(hand: seq<Card>, v: int): nat
  {
    multiset(Ranks(hand))[v]
  }

  predicate SameSuit(hand: seq<Card>)
  {
    forall i, j :: 0 <= i < j < |hand| ==> hand[i].suit == hand[j].suit
  }

  predicate DistinctRanks(hand: seq<Card>)
  {
    forall i, j :: 0 <= i < j < |hand| ==> hand[i].rank != hand[j].rank
  }

  /** Every rank lies in lo..lo+4. */
  predicate InWindow(hand: seq<Card>, lo: int)
  {
    forall i :: 0 <= i < |hand| ==> lo <= hand[i].rank <= lo + 4
  }

  /** Every rank is one of A, 2, 3, 4, 5. */
  predicate WheelRanks(hand: seq<Card>)
  {
    forall i :: 0 <= i < |hand| ==> hand[i].rank in {0, 1, 2, 3, Ace}
  }

  /** Five different ranks that are consecutive, or the wheel A-2-3-4-5. */
  ghost predicate IsStraight(hand: seq<Card>)
  {
    DistinctRanks(hand) && ((exists lo :: InWindow(hand, lo)) || WheelRanks(hand))
  }

  /** A straight flush from the 10 up to the Ace. */
  ghost predicate IsRoyal(hand: seq<Card>)
  {
    IsStraight(hand) && SameSuit(hand) && TenOrHigher(hand)
  }

  predicate TenOrHigher(hand: seq<Card>)
  {
    forall i :: 0 <= i < |hand| ==> hand[i].rank >= Ten
  }

  ghost predicate HasOfAKind(hand: seq<Card>, n: nat)
  {
    exists v :: RankCount(hand, v) == n
  }

  ghost predicate HasTwoPairs(hand: seq<Card>)
  {
    exists v, w :: v != w && RankCount(hand, v) == 2 && RankCount(hand, w) == 2
  }

  /** The hand categories in strictly descending priority. */
  ghost function Category(hand: seq<Card>): HandRank
  {
    if IsStraight(hand) && SameSuit(hand) then
      (if IsRoyal(hand) then RoyalFlush else StraightFlush)
    else if HasOfAKind(hand, 4) then FourOfAKind
    else if HasOfAKind(hand, 3) && HasOfAKind(hand, 2) then FullHouse
    else if SameSuit(hand) then Flush
    else if IsStraight(hand) then Straight
    else if HasOfAKind(hand, 3) then ThreeOfAKind
    else if HasTwoPairs(hand) then TwoPair
    else if HasOfAKind(hand, 2) then OnePair
    else HighCard
  }

  // ---------------------------------------------------------------------
  // The evaluator computes the categories

  /** `h` is the hand's rank values in descending order, as `handValues` is. */
  predicate IsHandValues(hand: seq<Card>, h: seq<int>)
  {
    |h| == |hand| && Desc(h) && multiset(h) == multiset(Ranks(hand))
  }

  lemma HandValuesSorted(hand: seq<Card>)
    ensures IsHandValues(hand, HandValues(hand))
  {
    SortDescSorted(Ranks(hand));
  }

  /** A bound holds of every element of a sequence iff it holds of every element of a permutation of it. */
  lemma BetweenOfPermutation(a: seq<int>, b: seq<int>, lo: int, hi: int)
    requires multiset(a) == multiset(b)
    ensures (forall i :: 0 <= i < |a| ==> lo <= a[i] <= hi) <==> (forall k :: 0 <= k < |b| ==> lo <= b[k] <= hi)
  {
    if forall i :: 0 <= i < |a| ==> lo <= a[i] <= hi {
      forall k | 0 <= k < |b|
        ensures lo <= b[k] <= hi
      {
        assert b[k] in multiset(a);
      }
    }
    if forall k :: 0 <= k < |b| ==> lo <= b[k] <= hi {
      forall i | 0 <= i < |a|
        ensures lo <= a[i] <= hi
      {
        assert a[i] in multiset(b);
      }
    }
  }

  lemma WheelOfPermutation(a: seq<int>, b: seq<int>)
    requires multiset(a) == multiset(b)
    ensures (forall i :: 0 <= i < |a| ==> a[i] in {0, 1, 2, 3, Ace}) <==> (forall k :: 0 <= k < |b| ==> b[k] in {0, 1, 2, 3, Ace})
  {
    if forall i :: 0 <= i < |a| ==> a[i] in {0, 1, 2, 3, Ace} {
      forall k | 0 <= k < |b|
        ensures b[k] in {0, 1, 2, 3, Ace}
      {
        assert b[k] in multiset(a);
      }
    }
    if forall k :: 0 <= k < |b| ==> b[k] in {0, 1, 2, 3, Ace} {
      forall i | 0 <= i < |a|
        ensures a[i] in {0, 1, 2, 3, Ace}
      {
        assert a[i] in multiset(b);
      }
    }
  }

  lemma FlushIff(hand: seq<Card>)
    requires |hand| == 5
    ensures IsFlushCode(hand) <==> SameSuit(hand)
  {
  }

  lemma DistinctIff(hand: seq<Card>, h: seq<int>)
    requires |hand| == 5 && IsHandValues(hand, h)
    ensures NoDup(h) <==> DistinctRanks(hand)
  {
    NoDupByCounts(h);
    NoDupByCounts(Ranks(hand));
    assert DistinctRanks(hand) <==> NoDup(Ranks(hand));
  }

  /** Sorting an already descending sequence changes nothing. */
  lemma SortDescOfDesc(s: seq<int>)
    requires Desc(s)
    ensures SortDesc(s) == s
  {
    SortDescSorted(s);
    DescUnique(SortDesc(s), s);
  }

  /** With distinct ranks, `uniqueRanks` is `handValues` reversed; otherwise it is shorter than five. */
  lemma UniqueRanksOfDistinct(hand: seq<Card>, h: seq<int>)
    requires |hand| == 5 && IsHandValues(hand, h)
    ensures DistinctRanks(hand) ==> UniqueRanks(h) == [h[4], h[3], h[2], h[1], h[0]]
    ensures !DistinctRanks(hand) ==> |UniqueRanks(h)| < 5
  {
    DistinctIff(hand, h);
    DedupLength(h);
    if DistinctRanks(hand) {
      SortDescOfDesc(h);
    }
  }

  /** A bound on every card's rank is a bound on every entry of `handValues`, and back. */
  lemma RanksBetween(hand: seq<Card>, h: seq<int>, lo: int, hi: int)
    requires |hand| == 5 && IsHandValues(hand, h)
    ensures (forall i :: 0 <= i < 5 ==> lo <= hand[i].rank <= hi)
        <==> (forall k :: 0 <= k < 5 ==> lo <= h[k] <= hi)
  {
    BetweenOfPermutation(Ranks(hand), h, lo, hi);
  }

  lemma RanksWheel(hand: seq<Card>, h: seq<int>)
    requires |hand| == 5 && IsHandValues(hand, h)
    ensures WheelRanks(hand) <==> forall k :: 0 <= k < 5 ==> h[k] in {0, 1, 2, 3, Ace}
  {
    WheelOfPermutation(Ranks(hand), h);
  }

  /** With distinct ranks `handValues` is strictly descending, between 0 and 12. */
  lemma DistinctValuesStrict(hand: seq<Card>, h: seq<int>)
    requires |hand| == 5 && IsHandValues(hand, h) && DistinctRanks(hand)
    ensures 12 >= h[0] > h[1] > h[2] > h[3] > h[4] >= 0
  {
    DistinctIff(hand, h);
    RanksBetween(hand, h, 0, 12);
  }

  /** The wheel test `"0,1,2,3,12"` recognises exactly the A-2-3-4-5 hands. */
  lemma WheelIff(hand: seq<Card>, h: seq<int>)
    requires |hand| == 5 && IsHandValues(hand, h) && DistinctRanks(hand)
    ensures UniqueRanks(h) == [0, 1, 2, 3, 12] <==> WheelRanks(hand)
  {
    UniqueRanksOfDistinct(hand, h);
    DistinctValuesStrict(hand, h);
    RanksWheel(hand, h);
  }

  /** The step-by-one test recognises exactly the hands whose ranks fit in a window of five. */
  lemma RunIff(hand: seq<Card>, h: seq<int>)
    requires |hand| == 5 && IsHandValues(hand, h) && DistinctRanks(hand)
    ensures |UniqueRanks(h)| == 5
    ensures StepsOfOne(UniqueRanks(h)) <==> exists lo :: InWindow(hand, lo)
  {
    var u := UniqueRanks(h);
    UniqueRanksOfDistinct(hand, h);
    DistinctValuesStrict(hand, h);
    if StepsOfOne(u) {
      RanksBetween(hand, h, h[4], h[4] + 4);
      assert InWindow(hand, h[4]);
    }
    if lo :| InWindow(hand, lo) {
      RanksBetween(hand, h, lo, lo + 4);
      assert lo <= h[4] && h[0] <= lo + 4;
    }
  }

  /** `isStraight` holds exactly for the straights. */
  lemma StraightIff(hand: seq<Card>, h: seq<int>)
    requires |hand| == 5 && IsHandValues(hand, h)
    ensures IsStraightRun(UniqueRanks(h)) <==> IsStraight(hand)
  {
    UniqueRanksOfDistinct(hand, h);
    if DistinctRanks(hand) {
      WheelIff(hand, h);
      RunIff(hand, h);
    }
  }

  /** Among straight flushes, the royal test (`Ace` on top, `10` at the bottom) picks the 10-to-Ace one. */
  lemma RoyalIff(hand: seq<Card>, h: seq<int>)
    requires |hand| == 5 && IsHandValues(hand, h) && IsStraight(hand)
    ensures (h[0] == Ace && h[4] == Ten) <==> TenOrHigher(hand)
  {
    DistinctValuesStrict(hand, h);
    RanksBetween(hand, h, Ten, Ace);
  }

  /** A value is a key of `rankCounts` with count n exactly when n cards share it. */
  lemma CountKeysMembers(hand: seq<Card>, h: seq<int>, n: nat)
    requires |hand| == 5 && IsHandValues(hand, h) && n > 0
    ensures forall v :: v in CountKeys(h, n) <==> RankCount(hand, v) == n
  {
    CountKeysSpec(h, n);
  }

  /** Some key has count n exactly when n cards share a rank. */
  lemma CountKeysNonEmpty(hand: seq<Card>, h: seq<int>, n: nat)
    requires |hand| == 5 && IsHandValues(hand, h) && n > 0
    ensures |CountKeys(h, n)| > 0 <==> HasOfAKind(hand, n)
  {
    var keys := CountKeys(h, n);
    CountKeysMembers(hand, h, n);
    if |keys| > 0 {
      assert keys[0] in keys;
      assert RankCount(hand, keys[0]) == n;
    }
    if HasOfAKind(hand, n) {
      var v :| RankCount(hand, v) == n;
      assert v in keys;
    }
  }

  lemma TwoMembers(s: seq<int>, v: int, w: int)
    requires v in s && w in s && v != w
    ensures |s| >= 2
  {
  }

  /** Five cards hold at most two pairs; `pairs.length` tells one pair from two. */
  lemma PairsIff(hand: seq<Card>, h: seq<int>)
    requires |hand| == 5 && IsHandValues(hand, h)
    ensures |Pairs(h)| <= 2
    ensures |Pairs(h)| == 2 <==> HasTwoPairs(hand)
    ensures |Pairs(h)| == 1 <==> HasOfAKind(hand, 2) && !HasTwoPairs(hand)
  {
    var keys := CountKeys(h, 2);
    assert |Pairs(h)| == |keys|;
    TwoPairsIff(hand, h);
    CountKeysNonEmpty(hand, h, 2);
  }

  lemma TwoPairsIff(hand: seq<Card>, h: seq<int>)
    requires |hand| == 5 && IsHandValues(hand, h)
    ensures |CountKeys(h, 2)| <= 2
    ensures |CountKeys(h, 2)| == 2 <==> HasTwoPairs(hand)
  {
    var keys := CountKeys(h, 2);
    CountKeysMembers(hand, h, 2);
    CountKeysSpec(h, 2);
    if |keys| >= 3 {
      assert keys[0] in keys && keys[1] in keys && keys[2] in keys;
      ThreeCountsBound(Ranks(hand), keys[0], keys[1], keys[2]);
    }
    if |keys| == 2 {
      assert keys[0] in keys && keys[1] in keys;
      assert RankCount(hand, keys[0]) == 2 && RankCount(hand, keys[1]) == 2;
    }
    if HasTwoPairs(hand) {
      var v, w :| v != w && RankCount(hand, v) == 2 && RankCount(hand, w) == 2;
      assert v in keys && w in keys;
      TwoMembers(keys, v, w);
    }
  }

  /**
   * `getHandResult` classifies every five-card hand into the category the
   * priority order gives it, and its value is that category's entry in
   * `handRankConfig`.
   */
  lemma GetHandResultCategory(hand: seq<Card>)
    requires |hand| == 5
    ensures GetHandResult(hand).rank == Category(hand)
    ensures GetHandResult(hand).value == HandRankConfig(Category(hand)).value
  {
    var h := HandValues(hand);
    HandValuesSorted(hand);
    FlushIff(hand);
    StraightIff(hand, h);
    if IsStraight(hand) {
      RoyalIff(hand, h);
    }
    CountKeysNonEmpty(hand, h, 4);
    CountKeysNonEmpty(hand, h, 3);
    PairsIff(hand, h);
  }

  // ---------------------------------------------------------------------
  // Tie-break ranks

  /** `ks` lists, highest first, exactly the hand's cards whose rank is not in `excl`. */
  ghost predicate RemainingRanks(hand: seq<Card>, ks: seq<int>, excl: seq<int>)
  {
    Desc(ks) && forall v :: multiset(ks)[v] == if v in excl then 0 else RankCount(hand, v)
  }

  lemma KickersOfHand(hand: seq<Card>, h: seq<int>, excl: seq<int>)
    requires IsHandValues(hand, h)
    ensures RemainingRanks(hand, Kickers(h, excl), excl)
    ensures |Kickers(h, excl)| == |h| - Dropped(h, excl)
  {
    KickersCount(h, excl);
    KickersDesc(h, excl);
    KickersLength(h, excl);
  }

  /** No two ranks can each be held `n` times when 2n exceeds five cards. */
  lemma SingleKey(hand: seq<Card>, h: seq<int>, n: nat)
    requires |hand| == 5 && IsHandValues(hand, h) && n >= 3
    ensures |CountKeys(h, n)| <= 1
  {
    var keys := CountKeys(h, n);
    CountKeysMembers(hand, h, n);
    CountKeysSpec(h, n);
    if |keys| >= 2 {
      assert keys[0] in keys && keys[1] in keys;
      TwoCountsBound(Ranks(hand), keys[0], keys[1]);
    }
  }

  /** A quad's rank followed by the remaining card. */
  lemma QuadKicker(hand: seq<Card>, h: seq<int>)
    requires |hand| == 5 && IsHandValues(hand, h) && |Fours(h)| > 0
    ensures var tb := [Fours(h)[0]] + Kickers(h, Fours(h));
      |tb| == 2 && RankCount(hand, tb[0]) == 4 && RemainingRanks(hand, tb[1..], [tb[0]])
  {
    var fours := Fours(h);
    SingleKey(hand, h, 4);
    CountKeysMembers(hand, h, 4);
    assert fours == [fours[0]] && fours[0] in fours;
    KickersOfHand(hand, h, fours);
    DroppedOne(h, fours[0]);
  }

  /** Four of a kind breaks ties on the quad's rank, then the fifth card. */
  lemma FourOfAKindTieBreak(hand: seq<Card>)
    requires |hand| == 5 && GetHandResult(hand).rank == FourOfAKind
    ensures var tb := GetHandResult(hand).tieBreakerRanks;
      |tb| == 2 && RankCount(hand, tb[0]) == 4 && RemainingRanks(hand, tb[1..], [tb[0]])
  {
    HandValuesSorted(hand);
    QuadKicker(hand, HandValues(hand));
  }

  /** A full house breaks ties on the three's rank, then the pair's. */
  lemma FullHouseTieBreak(hand: seq<Card>)
    requires |hand| == 5 && GetHandResult(hand).rank == FullHouse
    ensures var tb := GetHandResult(hand).tieBreakerRanks;
      |tb| == 2 && RankCount(hand, tb[0]) == 3 && RankCount(hand, tb[1]) == 2
  {
    var h := HandValues(hand);
    HandValuesSorted(hand);
    var threes, pairs := Threes(h), Pairs(h);
    CountKeysMembers(hand, h, 3);
    CountKeysMembers(hand, h, 2);
    assert threes[0] in threes;
    assert pairs[0] == CountKeys(h, 2)[|pairs| - 1];
    assert pairs[0] in CountKeys(h, 2);
  }

  /** A three's rank followed by the two remaining cards. */
  lemma TripsKickers(hand: seq<Card>, h: seq<int>)
    requires |hand| == 5 && IsHandValues(hand, h) && |Threes(h)| > 0
    ensures var tb := [Threes(h)[0]] + Kickers(h, Threes(h));
      |tb| == 3 && RankCount(hand, tb[0]) == 3 && RemainingRanks(hand, tb[1..], [tb[0]])
  {
    var threes := Threes(h);
    SingleKey(hand, h, 3);
    CountKeysMembers(hand, h, 3);
    assert threes == [threes[0]] && threes[0] in threes;
    KickersOfHand(hand, h, threes);
    DroppedOne(h, threes[0]);
  }

  /** Three of a kind breaks ties on the three's rank, then the two other cards, highest first. */
  lemma ThreeOfAKindTieBreak(hand: seq<Card>)
    requires |hand| == 5 && GetHandResult(hand).rank == ThreeOfAKind
    ensures var tb := GetHandResult(hand).tieBreakerRanks;
      |tb| == 3 && RankCount(hand, tb[0]) == 3 && RemainingRanks(hand, tb[1..], [tb[0]])
  {
    HandValuesSorted(hand);
    TripsKickers(hand, HandValues(hand));
  }

  /** Both pairs' ranks, higher first, followed by the remaining card. */
  lemma TwoPairsKicker(hand: seq<Card>, h: seq<int>)
    requires |hand| == 5 && IsHandValues(hand, h) && |Pairs(h)| == 2
    ensures var tb := [Pairs(h)[0], Pairs(h)[1]] + Kickers(h, Pairs(h));
      |tb| == 3 && tb[0] > tb[1] && RankCount(hand, tb[0]) == 2 && RankCount(hand, tb[1]) == 2
      && RemainingRanks(hand, tb[2..], tb[..2])
  {
    var keys := CountKeys(h, 2);
    var pairs := Pairs(h);
    CountKeysMembers(hand, h, 2);
    CountKeysSpec(h, 2);
    assert pairs == [keys[1], keys[0]];
    assert keys[0] in keys && keys[1] in keys;
    KickersOfHand(hand, h, pairs);
    DroppedTwo(h, pairs[0], pairs[1]);
    var tb := [pairs[0], pairs[1]] + Kickers(h, pairs);
    assert tb[..2] == pairs && tb[2..] == Kickers(h, pairs);
  }

  /** Two pair breaks ties on the higher pair, the lower pair, then the fifth card. */
  lemma TwoPairTieBreak(hand: seq<Card>)
    requires |hand| == 5 && GetHandResult(hand).rank == TwoPair
    ensures var tb := GetHandResult(hand).tieBreakerRanks;
      |tb| == 3 && tb[0] > tb[1] && RankCount(hand, tb[0]) == 2 && RankCount(hand, tb[1]) == 2
      && RemainingRanks(hand, tb[2..], tb[..2])
  {
    HandValuesSorted(hand);
    TwoPairsKicker(hand, HandValues(hand));
  }

  /** A pair's rank followed by the three remaining cards. */
  lemma PairKickers(hand: seq<Card>, h: seq<int>)
    requires |hand| == 5 && IsHandValues(hand, h) && |Pairs(h)| == 1
    ensures var tb := [Pairs(h)[0]] + Kickers(h, Pairs(h));
      |tb| == 4 && RankCount(hand, tb[0]) == 2 && RemainingRanks(hand, tb[1..], [tb[0]])
  {
    var keys := CountKeys(h, 2);
    var pairs := Pairs(h);
    CountKeysMembers(hand, h, 2);
    assert pairs == [keys[0]] && keys[0] in keys;
    KickersOfHand(hand, h, pairs);
    DroppedOne(h, pairs[0]);
  }

  /** One pair breaks ties on the pair's rank, then the three other cards, highest first. */
  lemma OnePairTieBreak(hand: seq<Card>)
    requires |hand| == 5 && GetHandResult(hand).rank == OnePair
    ensures var tb := GetHandResult(hand).tieBreakerRanks;
      |tb| == 4 && RankCount(hand, tb[0]) == 2 && RemainingRanks(hand, tb[1..], [tb[0]])
  {
    HandValuesSorted(hand);
    PairKickers(hand, HandValues(hand));
  }

  /** Flushes and high-card hands compare all five ranks, highest first. */
  lemma AllRanksTieBreak(hand: seq<Card>)
    requires |hand| == 5 && (GetHandResult(hand).rank == Flush || GetHandResult(hand).rank == HighCard)
    ensures IsHandValues(hand, GetHandResult(hand).tieBreakerRanks)
  {
    HandValuesSorted(hand);
  }

  /** The highest rank of the hand. */
  ghost predicate IsTopRank(hand: seq<Card>, x: int)
  {
    (exists i :: 0 <= i < |hand| && hand[i].rank == x) && forall i :: 0 <= i < |hand| ==> hand[i].rank <= x
  }

  /** `getStraightHighCard` on a straight: 5 for the wheel, the top card otherwise. */
  lemma StraightTop(hand: seq<Card>, h: seq<int>)
    requires |hand| == 5 && IsHandValues(hand, h) && IsStraight(hand)
    ensures WheelRanks(hand) ==> StraightHighCard(h) == 3
    ensures !WheelRanks(hand) ==> IsTopRank(hand, StraightHighCard(h))
  {
    DistinctValuesStrict(hand, h);
    RanksWheel(hand, h);
    if WheelRanks(hand) {
      assert h == [12, 3, 2, 1, 0];
    } else {
      var lo :| InWindow(hand, lo);
      RanksBetween(hand, h, lo, lo + 4);
      RanksBetween(hand, h, 0, h[0]);
      HandValueIsRank(hand, h, 0);
    }
  }

  /**
   * Straights break ties on their top card, except the wheel A-2-3-4-5,
   * whose top card is the 5 (value 3): the Ace plays low.
   */
  lemma StraightTieBreak(hand: seq<Card>)
    requires |hand| == 5
    requires GetHandResult(hand).rank == Straight || GetHandResult(hand).rank == StraightFlush
      || GetHandResult(hand).rank == RoyalFlush
    ensures var tb := GetHandResult(hand).tieBreakerRanks;
      |tb| == 1 && (WheelRanks(hand) ==> tb == [3]) && (!WheelRanks(hand) ==> IsTopRank(hand, tb[0]))
  {
    var h := HandValues(hand);
    HandValuesSorted(hand);
    assert IsStraightRun(UniqueRanks(h));
    StraightIff(hand, h);
    StraightTop(hand, h);
  }

  /** Every entry of `handValues` is the rank of some card. */
  lemma HandValueIsRank(hand: seq<Card>, h: seq<int>, k: nat)
    requires IsHandValues(hand, h) && k < |h|
    ensures exists i :: 0 <= i < |hand| && hand[i].rank == h[k]
  {
    var rs := Ranks(hand);
    assert h[k] in multiset(rs);
    var i :| 0 <= i < |rs| && rs[i] == h[k];
  }

  /**
   * Two hands of the same category always carry tie-break lists of the
   * same length, so the showdown loop never reads past the dealer's list.
   */
  lemma SameCategorySameLength(p: seq<Card>, d: seq<Card>)
    requires |p| == 5 && |d| == 5
    requires GetHandResult(p).rank == GetHandResult(d).rank
    ensures |GetHandResult(p).tieBreakerRanks| == |GetHandResult(d).tieBreakerRanks|
  {
    TieBreakLength(p);
    TieBreakLength(d);
  }

  /** The length of the tie-break list is fixed by the category. */
  function TieBreakSize(r: HandRank): nat
  {
    match r
    case RoyalFlush | StraightFlush | Straight => 1
    case FourOfAKind | FullHouse => 2
    case ThreeOfAKind | TwoPair => 3
    case OnePair => 4
    case Flush | HighCard => 5
  }

  lemma TieBreakLength(hand: seq<Card>)
    requires |hand| == 5
    ensures |GetHandResult(hand).tieBreakerRanks| == TieBreakSize(GetHandResult(hand).rank)
  {
    match GetHandResult(hand).rank
    case RoyalFlush | StraightFlush | Straight => StraightTieBreak(hand);
    case FourOfAKind => FourOfAKindTieBreak(hand);
    case FullHouse => FullHouseTieBreak(hand);
    case ThreeOfAKind => ThreeOfAKindTieBreak(hand);
    case TwoPair => TwoPairTieBreak(hand);
    case OnePair => OnePairTieBreak(hand);
    case Flush | HighCard => AllRanksTieBreak(hand);
  }
}
