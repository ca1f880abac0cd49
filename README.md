# Lucky Seven: a verified model of the game logic

Lucky Seven is a casino web front end. A player signs up, signs in, keeps a
credit balance, and plays five games against it: versus poker, blackjack, a
dice roller with a high/low bet, a three-reel slot machine, and a fortune
apple whose prize comes from a fortune generator. This project models in
Dafny the rules those games apply and proves properties of them. It also
models the registration form's validators, the route guard, and how a
history entry is labelled.

Each card's state is modelled as a class. Its fields are what the card
updates, and its methods are the card's event handlers, with `modifies this`.
Pure rules are modelled as functions, each proved against an independent
definition:

- the hand evaluator;
- the blackjack score;
- the validators;
- the route guard.

Randomness enters only as inputs:

- `Math.random()` values are sequences of reals in `[0, 1)`;
- the comparator answers of a random sort are a function argument;
- the fortune generator's answer is an `Outcome` value.

Modules:

- `Wrappers`: `Option`.
- `Betting`: the bet input's clamp and the `Winner` of a round.
- `Cards`:
  - cards and the 52-card deck;
  - the Fisher–Yates shuffle, both as a function and in place on an array.
- `PokerHands`: the hand evaluator `getHandResult`, with a declarative
  definition of each hand category.
- `PokerGame`:
  - the showdown comparison and payout;
  - the deal and the draw;
  - the dealer's hold rule;
  - the `VersusPoker` card.
- `Blackjack`:
  - the card value and the score, as computed;
  - the deal, the hit and the dealer's draw to 17;
  - the outcomes and payouts;
  - the `BlackjackTable` card.
- `Dice`: the rolls, the sum, the high/low bet and the `DiceRoller` card.
- `Slot`: the symbols, the shuffled reels, the payout line and the
  `SlotMachine` card.
- `Fortune`: the `FortuneApple` card, with its debit, prize and refund.
- `Register`: the email, phone and password validators and the
  `RegisterForm`.
- `Middleware`: the route guard.
- `History`: the title, the status badge class and the sign of a history
  entry.

## Model

| member | source | states |
|---|---|---|
| Betting.ClampBet | src/components/games/poker-card.tsx:348 | The bet is at least 1. A parsed value of at least 1 is kept. A missing (NaN) or smaller value becomes 1. |
| Cards.SuitIndex | src/components/games/poker-card.tsx:21 | Each suit has a position below 4 in the suit list, and that position holds the suit. |
| Cards.SuitRow | src/components/games/poker-card.tsx:92 | One suit's row of the deck has 13 cards, and position r holds that suit's card of rank r. |
| Cards.CreateDeck | src/components/games/poker-card.tsx:92 | The deck has 52 cards. |
| Cards.CreateDeckPositions | src/components/games/poker-card.tsx:92 | Suit-major order: every card sits at its index `13*suit + rank`, and every position holds the card with that index. |
| Cards.FullDeckOnce | src/components/games/blackjack-card.tsx:66-69 | Every one of the 52 cards occurs in the fresh deck exactly once. |
| Cards.SwapIndex | src/components/games/poker-card.tsx:97 | `floor(u*(i+1))` for `u` in `[0,1)` is an index at most `i`. |
| Cards.SwapPermutes | src/components/games/poker-card.tsx:98 | Swapping two positions keeps the multiset of cards. |
| Cards.ShuffleFromPermutes | src/components/games/poker-card.tsx:94-101 | Whatever the random draws, the shuffle loop from position i keeps the length and the multiset. |
| Cards.ShufflePermutes | src/components/games/blackjack-card.tsx:71-78 | The shuffle is a permutation of its input. |
| Cards.ShuffledDeckIsFull | src/components/games/poker-card.tsx:92-101 | A shuffled fresh deck has 52 cards, each of them exactly once. |
| Cards.SwapStep | src/components/games/poker-card.tsx:96-99 | One in-place swap step advances the functional shuffle by one position. |
| Cards.ShuffleInPlace | src/components/games/poker-card.tsx:94-101 | The descending swap loop on an array leaves in it exactly the functional shuffle of its old contents. |
| Cards.ShuffleDeck | src/components/games/blackjack-card.tsx:71-78 | Copies the deck, shuffles it in place, and returns the shuffle, which is a permutation of the deck. |
| PokerHands.HandRankConfig | src/components/games/poker-card.tsx:57-68 | Values lie between 1 and 10 and payouts between 0 and 250. |
| PokerHands.ConfigIsStrictOrder | src/components/games/poker-card.tsx:57-68 | Two categories have the same value exactly when they are the same category. Value order follows Royal Flush > … > High Card. |
| PokerHands.SortDescPermutes | src/components/games/poker-card.tsx:105 | Sorting the rank values is a permutation. |
| PokerHands.SortDescSorted | src/components/games/poker-card.tsx:105 | The sorted values are descending and a permutation of the ranks. |
| PokerHands.DedupLength | src/components/games/poker-card.tsx:119-121 | `new Set` keeps a duplicate-free list unchanged and shortens one that has duplicates. |
| PokerHands.DedupMembers | src/components/games/poker-card.tsx:119-121 | `new Set` keeps exactly the same values, each once. |
| PokerHands.GetHandResult | src/components/games/poker-card.tsx:103-146 | The result's value is its category's configured value, and the hand is the input hand. |
| PokerHands.GetHandResultCategory | src/components/games/poker-card.tsx:103-146 | The category computed from the value counts and runs equals the declarative category: royal flush, straight flush, four of a kind, full house, flush, straight, three of a kind, two pair, one pair or high card, checked in that order. |
| PokerHands.FlushIff | src/components/games/poker-card.tsx:118 | The flush test holds exactly when all five suits agree. |
| PokerHands.StraightIff | src/components/games/poker-card.tsx:119-130 | The straight test holds exactly when the ranks are five distinct consecutive ranks or A-2-3-4-5. |
| PokerHands.RoyalIff | src/components/games/poker-card.tsx:133-135 | In a straight, the royal test (Ace high, Ten low) holds exactly when every card is Ten or higher. |
| PokerHands.PairsIff | src/components/games/poker-card.tsx:113 | There are at most two pairs. Two pairs are found exactly for a two-pair hand, and one exactly when a pair exists without a second. |
| PokerHands.FourOfAKindTieBreak | src/components/games/poker-card.tsx:138 | The tie-breakers are the quad rank followed by the kicker. |
| PokerHands.FullHouseTieBreak | src/components/games/poker-card.tsx:139 | The tie-breakers are the three-of-a-kind rank followed by the pair rank. |
| PokerHands.ThreeOfAKindTieBreak | src/components/games/poker-card.tsx:142 | The tie-breakers are the trips rank followed by the two other ranks, descending. |
| PokerHands.TwoPairTieBreak | src/components/games/poker-card.tsx:143 | The tie-breakers are the higher pair, then the lower pair, then the kicker. |
| PokerHands.OnePairTieBreak | src/components/games/poker-card.tsx:144 | The tie-breakers are the pair rank followed by the three kickers, descending. |
| PokerHands.AllRanksTieBreak | src/components/games/poker-card.tsx:136-145 | For a flush or a high card, the tie-breakers are all five ranks, sorted descending. |
| PokerHands.StraightTieBreak | src/components/games/poker-card.tsx:131-141 | For a straight, the tie-breaker is its top rank, and for the wheel A-2-3-4-5 it is Five. |
| PokerHands.TieBreakLength | src/components/games/poker-card.tsx:136-145 | The number of tie-breakers depends only on the category. |
| PokerHands.SameCategorySameLength | src/components/games/poker-card.tsx:246 | Two hands of the same category have tie-breaker lists of equal length, so the comparison loop never runs past either list. |
| PokerGame.DecideWinner | src/components/games/poker-card.tsx:238-261 | The loop over the category value and the tie-breakers gives Player exactly when the player's (value, tie-breakers) is lexicographically greater, and Dealer exactly when it is smaller. |
| PokerGame.CompareFromIsLex | src/components/games/poker-card.tsx:246-252 | Comparing from position i onward, given agreement below i, is the lexicographic comparison. |
| PokerGame.ShowdownIsLex | src/components/games/poker-card.tsx:238-261 | The showdown winner is the lexicographic comparison of value then tie-breakers. |
| PokerGame.ShowdownAntisymmetric | src/components/games/poker-card.tsx:238-261 | Swapping the two hands swaps Player and Dealer and keeps Push. |
| PokerGame.PushIffSameRanks | src/components/games/poker-card.tsx:238-261 | A push happens exactly when both hands have the same category and equal tie-breakers. |
| PokerGame.BetterCategoryWins | src/components/games/poker-card.tsx:239-242 | The hand of the higher category wins, whatever the ranks. |
| PokerGame.Payout | src/components/games/poker-card.tsx:264-283 | A win pays twice the bet, a push returns the bet, and a loss pays nothing. |
| PokerGame.Popped | src/components/games/poker-card.tsx:166-171 | Alternate pops from the deck's end give a hand of n cards. |
| PokerGame.PlayerDeal | src/components/games/poker-card.tsx:166-171 | The player's dealt hand has five cards. |
| PokerGame.DealerDeal | src/components/games/poker-card.tsx:166-171 | The dealer's dealt hand has five cards. |
| PokerGame.DealConserves | src/components/games/poker-card.tsx:166-171 | After i rounds of the deal loop, the rest of the deck plus both hands is exactly the deck. |
| PokerGame.RedrawFrom | src/components/games/poker-card.tsx:205-213 | Replacing the unheld cards keeps a five-card hand and never grows the deck. |
| PokerGame.RedrawKeepsHeld | src/components/games/poker-card.tsx:207 | Held cards are kept in their places. |
| PokerGame.RedrawConserves | src/components/games/poker-card.tsx:205-213 | The new hand plus the new deck plus the discards is the old hand plus the old deck. |
| PokerGame.RedrawTakesTop | src/components/games/poker-card.tsx:208-210 | Replacements come off the deck's end, one per unheld card while cards last. |
| PokerGame.DealerKeeps | src/components/games/poker-card.tsx:216-226 | The dealer's hold mask has five entries. |
| PokerGame.DealerDrawsOnHighCard | src/components/games/poker-card.tsx:216-220 | The dealer keeps all five cards exactly when its hand is better than a high card. |
| PokerGame.DealerKeepsTail | src/components/games/poker-card.tsx:219-222 | The dealer always keeps its last two cards, and keeps all five unless it holds a high card. |
| PokerGame.DealerDrawKeeps | src/components/games/poker-card.tsx:216-226 | During the draw, the dealer's last two cards stay, and a hand better than a high card stays whole. |
| PokerGame.DealtHoldsEveryCard | src/components/games/poker-card.tsx:148-176 | After the deal, the deck and the two hands together hold each card of a full deck exactly once. |
| PokerGame.DrawHoldsEveryCard | src/components/games/poker-card.tsx:199-229 | The draw keeps that property, with the discards counted. |
| PokerGame.RoundHoldsEveryCard | src/components/games/poker-card.tsx:148-229 | From shuffle to showdown, no card is lost or duplicated. |
| PokerGame.ReplaceUnheld | src/components/games/poker-card.tsx:205-213 | The replacement loop gives the functional redraw's hand and deck. |
| PokerGame.KeptTail | src/components/games/poker-card.tsx:207 | When every card from position i on is held, the redraw from i changes nothing. |
| PokerGame.DealHands | src/components/games/poker-card.tsx:166-171 | The deal loop gives the functional deal and leaves the first 42 cards in the deck. |
| PokerGame.DrawRound | src/components/games/poker-card.tsx:199-229 | After a draw, both hands still have five cards. |
| PokerGame.DrawHands | src/components/games/poker-card.tsx:199-229 | The player redraw followed by the dealer redraw gives the functional draw round, with the dealer's hold rule. |
| PokerGame.DrawRoundConserves | src/components/games/poker-card.tsx:199-229 | Both hands plus the deck plus the discards are the same multiset before and after the draw. |
| PokerGame.DrawRoundKeeps | src/components/games/poker-card.tsx:205-222 | Each held card of either hand stays in its place. |
| PokerGame.DrawRoundTakesTop | src/components/games/poker-card.tsx:199-229 | From a dealt deck, the draw takes exactly one card per unheld card, from the end. |
| PokerGame.UnheldAtMost | src/components/games/poker-card.tsx:207 | At most five cards are replaced. |
| PokerGame.EvaluateShowdown | src/components/games/poker-card.tsx:231-261 | Both hands are evaluated, and the winner is the showdown comparison of the two results. |
| PokerGame.VersusPoker.constructor | src/components/games/poker-card.tsx:79-90 | Fresh state: betting, bet 10, empty hands and deck, nothing held, no results and no winner. |
| PokerGame.VersusPoker.SetBet | src/components/games/poker-card.tsx:348 | Sets the bet to the clamped input and changes nothing else. |
| PokerGame.VersusPoker.Deal | src/components/games/poker-card.tsx:148-176 | Too few credits change nothing. Otherwise the bet is debited and a shuffled fresh deck is dealt, alternating pops from its end, with the first 42 cards left. The state becomes drawing, and holds and results are cleared. |
| PokerGame.VersusPoker.ToggleCard | src/components/games/poker-card.tsx:192-197 | Only while drawing, flips one card's hold flag. Everything else, including the results, is unchanged. |
| PokerGame.VersusPoker.Draw | src/components/games/poker-card.tsx:199-229 | Only while drawing: the player's unheld cards, then the dealer's, are replaced by the functional draw round, and the state goes to showdown. Credits, bet, hold flags, results and winner are unchanged. |
| PokerGame.VersusPoker.SettleShowdown | src/components/games/poker-card.tsx:231-290 | At a showdown not yet settled, records both results and the winner, and credits the payout. Hands, deck, hold flags and bet are unchanged. Otherwise changes nothing. |
| PokerGame.VersusPoker.StartNewGame | src/components/games/poker-card.tsx:178-186 | Back to betting, with empty hands, nothing held and no results. The credits and the bet are kept. |
| Blackjack.CardValue | src/components/games/blackjack-card.tsx:80-84 | An Ace is 11 unless that would pass 21, in which case it is 1. Face cards are 10, and number cards their number. |
| Blackjack.CalculateScore | src/components/games/blackjack-card.tsx:86-100 | The summing loop and the Ace-downgrading loop give the score function. |
| Blackjack.DowngradeShape | src/components/games/blackjack-card.tsx:94-97 | The downgrade loop subtracts 10 per step, at most once per Ace. It stops at 21 or below, or when every Ace has been used, and only steps while over 21. |
| Blackjack.ScoreShape | src/components/games/blackjack-card.tsx:86-100 | The score is the running sum minus 10 for k of the Aces, with k at most the Ace count. It is over 21 only when every Ace was downgraded, and any downgrade was forced. |
| Blackjack.NoAceScore | src/components/games/blackjack-card.tsx:86-100 | Without Aces, the score is the plain sum of the card values. |
| Blackjack.TwoCardsAtMost21 | src/components/games/blackjack-card.tsx:86-100 | Two cards never bust. |
| Blackjack.RunningSumStep | src/components/games/blackjack-card.tsx:88-92 | Adding a card adds its value at the running total, and one to the Ace count if it is an Ace. |
| Blackjack.ScoreKingFiveAceNine | src/components/games/blackjack-card.tsx:86-100 | King, 5, Ace, 9 scores 15: the Ace counted as 1 is downgraded again. |
| Blackjack.ScoreNineAceKingFive | src/components/games/blackjack-card.tsx:86-100 | 9, Ace, King, 5 scores 25. |
| Blackjack.ScoreTenAce | src/components/games/blackjack-card.tsx:86-100 | Ten, Ace scores 21. |
| Blackjack.ScoreAceAceNine | src/components/games/blackjack-card.tsx:86-100 | Ace, Ace, 9 scores 21: the second Ace counts 1. |
| Blackjack.ScoreKingQueenFive | src/components/games/blackjack-card.tsx:86-100 | King, Queen, 5 scores 25: without an Ace nothing is downgraded. |
| Blackjack.ScoreDependsOnOrder | src/components/games/blackjack-card.tsx:86-100 | The same cards in another order can score differently. |
| Blackjack.PlayerHandOutcome | src/components/games/blackjack-card.tsx:140-150 | Over 21 the dealer wins. 21 with two cards is a player win. Otherwise play goes on. It never gives a push. |
| Blackjack.DealerTurnWinner | src/components/games/blackjack-card.tsx:182-189 | The player wins exactly when the dealer busts or the player is higher. The dealer wins exactly when the dealer is at most 21 and higher. Equal scores are a push. |
| Blackjack.Payout | src/components/games/blackjack-card.tsx:193-216 | The payout is never negative. |
| Blackjack.NetGain | src/components/games/blackjack-card.tsx:193-216 | Net of the bet, a natural gains 1.5 times the bet, any other win the bet, a push nothing, and a loss the bet. The gain is positive exactly on a win. |
| Blackjack.DealHands | src/components/games/blackjack-card.tsx:117-118 | The four pops deal the functional player and dealer hands and leave the first 48 cards. |
| Blackjack.DealerPlay | src/components/games/blackjack-card.tsx:171-175 | Drawing moves cards from the deck to the hand and never shrinks the hand. |
| Blackjack.DealerStops | src/components/games/blackjack-card.tsx:171-175 | The dealer stops at 17 or more, or when the deck is empty. |
| Blackjack.DealerDrawsFromTop | src/components/games/blackjack-card.tsx:171-175 | The dealer's old cards stay first, and each new card is the next one from the deck's end. |
| Blackjack.DealerDrewUnder17 | src/components/games/blackjack-card.tsx:171-175 | Each card was drawn while the dealer's score was below 17. |
| Blackjack.DealerDraws | src/components/games/blackjack-card.tsx:165-181 | The draw loop gives the functional dealer play and its score. |
| Blackjack.DealHoldsEveryCard | src/components/games/blackjack-card.tsx:112-124 | After the deal, the deck and the hands hold each card of a full deck exactly once. |
| Blackjack.HitKeepsEveryCard | src/components/games/blackjack-card.tsx:152-159 | A hit keeps that property. |
| Blackjack.DealerPlayKeepsEveryCard | src/components/games/blackjack-card.tsx:171-175 | The dealer's draw keeps that property. |
| Blackjack.BlackjackTable.constructor | src/components/games/blackjack-card.tsx:55-62 | Fresh state: betting, bet 10, empty hands and deck, no winner. |
| Blackjack.BlackjackTable.SetBet | src/components/games/blackjack-card.tsx:261 | Sets the bet to the clamped input and changes nothing else. |
| Blackjack.BlackjackTable.Deal | src/components/games/blackjack-card.tsx:102-127 | Too few credits change nothing. Otherwise the bet is debited, two cards each are popped from a shuffled fresh deck, both scores are computed, and the player's turn begins. |
| Blackjack.BlackjackTable.SettlePlayerHand | src/components/games/blackjack-card.tsx:140-216 | During the player's turn, a bust or a natural ends the game with that winner and pays out. Otherwise nothing changes. |
| Blackjack.BlackjackTable.Hit | src/components/games/blackjack-card.tsx:152-159 | During the player's turn with cards left, the top card goes to the player and the score is recomputed. Otherwise nothing changes. |
| Blackjack.BlackjackTable.Stand | src/components/games/blackjack-card.tsx:161-163 | The dealer's turn begins, and nothing else changes. |
| Blackjack.BlackjackTable.PlayDealer | src/components/games/blackjack-card.tsx:165-216 | In the dealer's turn, the dealer draws to 17, the winner is decided and the payout is credited. Otherwise nothing changes. |
| Blackjack.BlackjackTable.StartNewGame | src/components/games/blackjack-card.tsx:129-134 | Back to betting, with empty hands and no winner. The credits and the bet are kept. |
| Dice.Face | src/components/games/dice-roller-card.tsx:45 | `floor(u*sides)+1` is a face between 1 and the number of sides. |
| Dice.Faces | src/components/games/dice-roller-card.tsx:44-48 | One face per random draw, each between 1 and the number of sides. |
| Dice.SumBounds | src/components/games/dice-roller-card.tsx:47 | The total of n faces lies between n and n times the number of sides. |
| Dice.Wins | src/components/games/dice-roller-card.tsx:52-57 | High wins exactly at a total of at least 11, and low exactly below 11. |
| Dice.ExactlyOneBetWins | src/components/games/dice-roller-card.tsx:52-59 | For every total exactly one of the two bets wins. |
| Dice.OutOfReach | src/components/games/dice-roller-card.tsx:52-57 | High cannot win when n·sides < 11, and low cannot win with 11 or more dice. |
| Dice.RollDice | src/components/games/dice-roller-card.tsx:42-48 | The roll loop gives the faces of the draws, each in range, and their total. |
| Dice.DiceRoller.constructor | src/components/games/dice-roller-card.tsx:24-29 | Two six-sided dice, with no results and no bet. |
| Dice.DiceRoller.SetNumDice | src/components/games/dice-roller-card.tsx:86 | The number of dice is the input, raised to at least 1. Nothing else changes. |
| Dice.DiceRoller.SetNumSides | src/components/games/dice-roller-card.tsx:96 | The number of sides is the input, raised to at least 2. Nothing else changes. |
| Dice.DiceRoller.SetBetType | src/components/games/dice-roller-card.tsx:24-29 | Records the bet, and nothing else changes. |
| Dice.DiceRoller.Roll | src/components/games/dice-roller-card.tsx:32-60 | Without a bet nothing changes. Otherwise the results are the faces of the draws, the total is their sum, and the win status is the bet's verdict on the total. |
| Slot.RandomOrder | src/components/games/slot-machine.tsx:124-126 | Sorting with a random comparator keeps the length and the multiset. |
| Slot.PermutedReel | src/components/games/slot-machine.tsx:12-19 | Any rearrangement of the six symbols shows every symbol. |
| Slot.ShuffledReel | src/components/games/slot-machine.tsx:124-126 | Whatever the comparator answers, a shuffled reel is a permutation of the symbols and shows each of them. |
| Slot.OnEveryReel | src/components/games/slot-machine.tsx:12-19 | Every symbol appears on every reel. |
| Slot.ShuffleReels | src/components/games/slot-machine.tsx:122-127 | The three new reels are each an arrangement of all six symbols. |
| Slot.Prize | src/components/games/slot-machine.tsx:88-95 | Every symbol pays a positive prize. |
| Slot.PrizeFollowsSymbolOrder | src/components/games/slot-machine.tsx:88-95 | Prizes rise strictly along the symbol list, from cherry to seven. |
| Slot.WinAmount | src/components/games/slot-machine.tsx:82-106 | The amount is never negative. It is positive exactly when the three top symbols agree, and then it is that symbol's prize. |
| Slot.SlotMachine.constructor | src/components/games/slot-machine.tsx:67-70 | The given credits, no reels yet, not spinning, no last win. |
| Slot.SlotMachine.InitReels | src/components/games/slot-machine.tsx:73-80 | Installs three shuffled reels and keeps credits and spin state. |
| Slot.SlotMachine.Spin | src/components/games/slot-machine.tsx:108-133 | Below 10 credits nothing changes. Otherwise 10 credits are debited, the last win is cleared, new reels are shuffled in, and spinning starts. |
| Slot.SlotMachine.FinishSpin | src/components/games/slot-machine.tsx:129-132 | Spinning stops, the line's win amount is recorded, and it is credited. |
| Fortune.Returned | src/components/games/fortune-apple-card.tsx:38-57 | A fortune returns its prize times the bet, and a failure returns the bet. |
| Fortune.PlayNet | src/components/games/fortune-apple-card.tsx:24-59 | Over one play, a failure leaves the balance unchanged, and a fortune changes it by (prize − 1) times the bet. |
| Fortune.FortuneApple.constructor | src/components/games/fortune-apple-card.tsx:18-21 | The given credits, ready, bet 1, no result. |
| Fortune.FortuneApple.SetBet | src/components/games/fortune-apple-card.tsx:105 | Sets the bet to the clamped input and changes nothing else. |
| Fortune.FortuneApple.Play | src/components/games/fortune-apple-card.tsx:24-37 | Too few credits change nothing. Otherwise the bet is debited, the state becomes loading, the result is cleared, and the request is pending. |
| Fortune.FortuneApple.Resolve | src/components/games/fortune-apple-card.tsx:38-58 | A fortune is shown with its prize times that request's bet, credited, and the state becomes revealed. A failure refunds the bet and the state becomes ready. |
| Fortune.FortuneApple.PlayAgain | src/components/games/fortune-apple-card.tsx:61-64 | Back to ready with no result shown. |
| Register.Contains | src/app/register/page.tsx:63-74 | True exactly when some character is of the class. |
| Register.ValidateEmail | src/app/register/page.tsx:29-32 | True exactly when the address has the shape `local@domain.tld`: the local part is non-empty, and the domain and tld are non-empty without whitespace or another `@`. |
| Register.EmailHasOneAt | src/app/register/page.tsx:29-32 | An accepted email has exactly one `@` and no whitespace. |
| Register.ValidatePhoneNumber | src/app/register/page.tsx:44-47 | True exactly when the number is 11 digits. |
| Register.ValidatePassword | src/app/register/page.tsx:59-76 | The message is empty exactly when all five rules hold. Otherwise it is one of the five rule messages. |
| Register.FirstBrokenIsFirst | src/app/register/page.tsx:59-76 | The first broken rule exists exactly when some rule fails, and every rule before it holds. |
| Register.PasswordReportsFirstBroken | src/app/register/page.tsx:59-76 | The message reported is that of the first broken rule, in the order length, lowercase, uppercase, digit, special. |
| Register.RegisterForm.constructor | src/app/register/page.tsx:18-25 | Empty fields, no errors, not loading. |
| Register.RegisterForm.ChangeEmail | src/app/register/page.tsx:34-42 | Stores the email and sets the email error exactly when it is non-empty and invalid. |
| Register.RegisterForm.ChangePhoneNumber | src/app/register/page.tsx:49-57 | Stores the phone number and sets its error exactly when it is non-empty and invalid. |
| Register.RegisterForm.ChangePassword | src/app/register/page.tsx:78-86 | Stores the password and sets its error to the validator's message when non-empty. |
| Register.RegisterForm.ChangeName | src/app/register/page.tsx:163 | Stores the name, and nothing else changes. |
| Register.RegisterForm.Submit | src/app/register/page.tsx:89-111 | The request is sent exactly when password, email and phone are all valid. Then all errors are cleared and loading starts. Otherwise the first failing check's error is set, in that order, and loading is unchanged. |
| Register.RegisterForm.FinishRequest | src/app/register/page.tsx:142-144 | Loading ends, and nothing else changes. |
| Middleware.Guard | src/middleware.ts:20-43 | Sends a signed-in user from login, register or the root to home. Sends a signed-out user from a protected page or the root to login. Lets everything else through, and never redirects to the page requested. |
| Middleware.RedirectSettles | src/middleware.ts:20-43 | The page a redirect leads to is let through. |
| Middleware.GuardOnMatchedPages | src/middleware.ts:9-58 | On the configured pages, a signed-in user passes exactly on the protected pages, and a signed-out user exactly on login and register. |
| History.OrElse | src/components/shared/history-item.tsx:24-31 | An empty description falls back, and any other is kept. |
| History.FormatTitle | src/components/shared/history-item.tsx:19-32 | A deposit is titled "Funds Request". A game entry gets its prefix plus the description or "Unknown Game". Anything else gets the description or "Transaction". |
| History.TitleKeepsDescription | src/components/shared/history-item.tsx:19-32 | Except for deposits, a non-empty description ends the title, and a game title begins with its prefix. |
| History.GamePrefixesDiffer | src/components/shared/history-item.tsx:23-28 | The three game prefixes differ. |
| History.ToLower | src/components/shared/history-item.tsx:39 | Lowering keeps the length and maps every character. |
| History.LowerChar | src/components/shared/history-item.tsx:39 | The result is never an upper-case letter, and lower-case letters are unchanged. |
| History.ToLowerIdempotent | src/components/shared/history-item.tsx:39 | Lowering twice is lowering once. |
| History.StatusClass | src/components/shared/history-item.tsx:38-49 | Completed, pending and failed (in any case) get their badge classes, and anything else, or no status, is hidden. |
| History.StatusClassIgnoresCase | src/components/shared/history-item.tsx:38-49 | Statuses that lower to the same string get the same class. |
| History.Sign | src/components/shared/history-item.tsx:73 | A credit shows "+", and every other direction "-". |

## Left out

- Rendering, toasts, icons and the `Reel` animation are not modelled, and neither is the final reel order shown on screen. That order is drawn independently of the reels that pay.
- The registration request is not modelled: its fetch, its response handling and the navigation after it. Only the form state around it is.
- The login page, the credits and auth contexts, the wallet and the history list are not modelled. The shared credit balance is a field of each card.
- Asynchronous timing is not modelled. React's effect scheduling and batching are collapsed into explicit methods (`SettlePlayerHand`, `PlayDealer`, `SettleShowdown`, `FinishSpin`, `Resolve`) that the caller invokes in the order the effects would fire.
- `Math.random` is an input: reals in `[0, 1)`, comparator answers, or the fortune generator's answer.
- Blackjack credits are reals. JavaScript floating-point rounding of the 2.5× payout is not modelled.
- Slot.RandomOrder: the engine's sort algorithm for `sort(() => Math.random() - 0.5)` is not specified, so it is modelled as an insertion sort driven by the comparator's answers. Only "a permutation of the symbols" is claimed, not which arrangements occur or how often.
- Dice.DiceRoller.SetNumDice: `parseInt` of a non-numeric input gives `NaN`, which `Math.max` propagates. The model takes an integer, so the NaN state is not represented.
- Dice.DiceRoller.SetNumSides: the same `NaN` case is not represented.
- Dice.Face: the real product `u * sides` is exact, with no floating-point rounding.
- Blackjack.BlackjackTable.Stand: as in the source, it has no guard on the game state. Its button is shown only during the player's turn, which the model does not require.
- Slot.SlotMachine.Spin: requires that no spin is in progress, because the spin button is disabled while spinning (slot-machine.tsx:163).
- Register.ValidatePassword: lengths count characters, whereas JavaScript counts UTF-16 code units. A password with characters outside the Basic Multilingual Plane is measured differently.
- History.StatusClass: `toLowerCase` is modelled as lowering A–Z only. Only A–Z lower onto the letters of the three status words, so the class chosen is the same.
- History.FormatTitle: the entry types are strings. The `HistoryEntry` record's other fields do not affect the title.
- Fortune.Returned: the generator's prize is a JavaScript number, which the model takes as an integer. Its schema describes 5 to 50 credits, and the model does not bound it. The generator itself, an AI flow, is not modelled.
- Conservation of the cards (each card exactly once across deck, hands and discards) is proved about the functions the class methods are tied to. It is not a field invariant of `VersusPoker` or `BlackjackTable`.
