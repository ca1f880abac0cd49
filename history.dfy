/**
 * One line of the wallet and game history: its title, the badge class of
 * its status, and the sign in front of its amount.
 */
module History {
  import opened Wrappers

  // ---------------------------------------------------------------------
  // formatTitle

  const UnknownGame := "Unknown Game"
  const FundsRequest := "Funds Request"
  const Transaction := "Transaction"

  predicate IsGameType(entryType: string)
  {
    entryType == "win" || entryType == "loss" || entryType == "bet"
  }

  /** The title prefix of a game entry. */
  function GamePrefix(entryType: string): string
    requires IsGameType(entryType)
  {
    if entryType == "win" then "Game Win: "
    else if entryType == "loss" then "Game Loss: "
    else "Game Bet: "
  }

  /** `description || fallback`: the empty string is the only falsy string. */
  function OrElse(description: string, fallback: string): (s: string)
    ensures s == if description == "" then fallback else description
  {
    if description != "" then description else fallback
  }

  /** `formatTitle`. */
  function FormatTitle(entryType: string, description: string): (title: string)
    ensures entryType == "deposit" ==> title == FundsRequest
    ensures IsGameType(entryType) ==>
      title == GamePrefix(entryType) + (if description == "" then UnknownGame else description)
    ensures entryType != "deposit" && !IsGameType(entryType) ==>
      title == (if description == "" then Transaction else description)
  {
    if entryType == "deposit" then FundsRequest
    else if entryType == "win" then "Game Win: " + OrElse(description, UnknownGame)
    else if entryType == "loss" then "Game Loss: " + OrElse(description, UnknownGame)
    else if entryType == "bet" then "Game Bet: " + OrElse(description, UnknownGame)
    else OrElse(description, Transaction)
  }

  /**
   * Except for deposits, a non-empty description can be read back from the
   * end of the title, and a game title tells which of the three game
   * entries it is.
   */
  lemma TitleKeepsDescription(entryType: string, description: string)
    requires entryType != "deposit" && description != ""
    ensures var title := FormatTitle(entryType, description);
      && |description| <= |title|
      && title[|title| - |description|..] == description
      && (IsGameType(entryType) ==> title[..|title| - |description|] == GamePrefix(entryType))
  {
    var title := FormatTitle(entryType, description);
    if IsGameType(entryType) {
      assert title == GamePrefix(entryType) + description;
      assert title[|title| - |description|..] == description;
    }
  }

  /** The three game prefixes differ, so the title of a game entry determines its type. */
  lemma GamePrefixesDiffer(a: string, b: string)
    requires IsGameType(a) && IsGameType(b) && a != b
    ensures GamePrefix(a) != GamePrefix(b)
  {
    var pa, pb := GamePrefix(a), GamePrefix(b);
    assert pa[5] != pb[5];
  }

  // ---------------------------------------------------------------------
  // getStatusClass

  /**
   * Lower-casing of the letters A-Z. Among all characters, only those map
   * by `toLowerCase` onto the letters of "completed", "pending" and
   * "failed", so matching after this lowering matches after the full one.
   */
  function ToLower(s: string): (r: string)
    ensures |r| == |s|
    ensures forall k :: 0 <= k < |s| ==> r[k] == LowerChar(s[k])
  {
    seq(|s|, k requires 0 <= k < |s| => LowerChar(s[k]))
  }

  function LowerChar(c: char): (l: char)
    ensures !('A' <= l <= 'Z')
    ensures 'a' <= c <= 'z' ==> l == c
  {
    if 'A' <= c <= 'Z' then (c as int + 32) as char else c
  }

  /** Lowering twice is lowering once. */
  lemma ToLowerIdempotent(s: string)
    ensures ToLower(ToLower(s)) == ToLower(s)
  {
  }

  const CompletedClass := "bg-green-500/20 text-green-400 border-green-500/30"
  const PendingClass := "bg-yellow-500/20 text-yellow-400 border-yellow-500/30"
  const FailedClass := "bg-red-500/20 text-red-400 border-red-500/30"
  const HiddenClass := "hidden"

  /** `getStatusClass`: a missing status, or any status but the three known ones, is hidden. */
  function StatusClass(status: Option<string>): (cls: string)
    ensures cls == CompletedClass <==> status.Some? && ToLower(status.value) == "completed"
    ensures cls == PendingClass <==> status.Some? && ToLower(status.value) == "pending"
    ensures cls == FailedClass <==> status.Some? && ToLower(status.value) == "failed"
    ensures cls == HiddenClass <==>
      status.None? || ToLower(status.value) !in {"completed", "pending", "failed"}
  {
    match status
    case None => HiddenClass
    case Some(s) =>
      var lower := ToLower(s);
      if lower == "completed" then CompletedClass
      else if lower == "pending" then PendingClass
      else if lower == "failed" then FailedClass
      else HiddenClass
  }

  /** The status is matched regardless of case. */
  lemma StatusClassIgnoresCase(a: string, b: string)
    requires ToLower(a) == ToLower(b)
    ensures StatusClass(Some(a)) == StatusClass(Some(b))
  {
  }

  // ---------------------------------------------------------------------
  // The amount's sign

  /** `isCredit ? '+' : '-'`: credits show a plus, every other direction a minus. */
  function Sign(direction: string): (sign: string)
    ensures sign == "+" <==> direction == "credit"
    ensures sign == "-" <==> direction != "credit"
  {
    if direction == "credit" then "+" else "-"
  }
}
