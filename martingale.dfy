/**
 * The Martingale "Bet on 1" strategy: from a session's spin history, decide whether to bet
 * next and how much, doubling the stake after each loss and going back to the base bet after
 * a win, and skipping when the doubled stake would exceed the maximum bet.
 * Amounts are in cents.
 */
module Martingale {
  import opened Wrappers
  import opened Money
  import opened Models
  import opened Text

  /** The segment this strategy bets on. */
  const WinningResult: string := "1"
  const DefaultBaseBet: Cents := 100
  const DefaultMaxBet: Cents := 100000
  const StrategyName: string := "Martingale \"Bet on 1\""
  const ProgressionType: string := "Double on loss, reset on win"

  datatype StrategyError =
    | NegativeLosses
    | BaseBetNotPositive
    | MaxBetNotPositive
    | BaseBetExceedsMax

  function ErrorMessage(e: StrategyError): string {
    match e
    case NegativeLosses => "Consecutive losses cannot be negative"
    case BaseBetNotPositive => "Base bet must be positive"
    case MaxBetNotPositive => "Maximum bet must be positive"
    case BaseBetExceedsMax => "Base bet cannot exceed maximum bet"
  }

  datatype Action = Bet | Skip

  /** Why an action was recommended; the Skip reason carries the two amounts it compares. */
  datatype Reason =
    | FirstSpin
    | ResetToBaseBet
    | Progression(losses: nat)
    | ExceedsMaximum(nextBet: Cents, maxBet: Cents)

  datatype Recommendation = Recommendation(action: Action, betAmount: Cents, reason: Reason, consecutiveLosses: nat)

  datatype StrategyConfiguration = StrategyConfiguration(
    strategyName: string,
    baseBet: Cents,
    maxBet: Cents,
    winningResult: string,
    maxConsecutiveLosses: nat,
    progressionType: string)

  /** The reason's text; its first letter tells which kind of reason it is. */
  function ReasonText(reason: Reason): (text: string)
    ensures |text| > 0
    ensures reason.FirstSpin? <==> text[0] == 'F'
    ensures reason.ResetToBaseBet? <==> text[0] == 'P'
    ensures reason.Progression? <==> text[0] == 'M'
    ensures reason.ExceedsMaximum? <==> text[0] == 'N'
  {
    match reason
    case FirstSpin => "First spin - start with base bet"
    case ResetToBaseBet => "Previous spin won - reset to base bet"
    case Progression(k) => "Martingale progression after " + NatToString(k) + " consecutive losses"
    case ExceedsMaximum(next, max) =>
      "Next bet amount (" + CentsToString(next) + ") exceeds maximum bet limit (" + CentsToString(max) + ")"
  }

  // ---------------------------------------------------------------------------------------
  // Classification of spins

  /** A spin won for this strategy: segment "1" came up and the spin made a profit. */
  predicate IsWinningSpin(spin: Spin): (won: bool)
    ensures won ==> spin.pl > 0 && !IsLosingBet(spin)
  {
    spin.result == WinningResult && spin.pl > 0
  }

  /** A spin was a lost bet: money was staked and lost. */
  predicate IsLosingBet(spin: Spin): (lost: bool)
    ensures lost ==> spin.pl < 0
  {
    spin.betAmount > 0 && spin.pl < 0
  }

  // ---------------------------------------------------------------------------------------
  // Parameters and the doubling progression

  function ValidateStrategyParameters(baseBet: Cents, maxBet: Cents): (r: Outcome<StrategyError>)
    ensures r.Pass? <==> 0 < baseBet <= maxBet
    ensures baseBet <= 0 ==> r == Fail(BaseBetNotPositive)
    ensures baseBet > 0 && maxBet <= 0 ==> r == Fail(MaxBetNotPositive)
    ensures baseBet > 0 && maxBet > 0 && baseBet > maxBet ==> r == Fail(BaseBetExceedsMax)
  {
    if baseBet <= 0 then Fail(BaseBetNotPositive)
    else if maxBet <= 0 then Fail(MaxBetNotPositive)
    else if baseBet > maxBet then Fail(BaseBetExceedsMax)
    else Pass
  }

  function Pow2(n: nat): (p: nat)
    ensures p >= 1
  {
    if n == 0 then 1 else 2 * Pow2(n - 1)
  }

  lemma {:induction false} Pow2Increasing(m: nat, n: nat)
    requires m < n
    ensures Pow2(m) < Pow2(n)
  {
    if m + 1 < n {
      Pow2Increasing(m, n - 1);
    }
  }

  /** base * 2^n is increasing in n, for a positive base. */
  lemma ProgressionIncreasing(baseBet: int, m: nat, n: nat)
    requires baseBet > 0 && m < n
    ensures baseBet * Pow2(m) < baseBet * Pow2(n)
  {
    Pow2Increasing(m, n);
    MulStrict(baseBet, Pow2(m), Pow2(n));
  }

  lemma MulStrict(a: int, x: int, y: int)
    requires a > 0 && x < y
    ensures a * x < a * y
  {
  }

  lemma ProgressionStep(baseBet: int, n: nat)
    ensures baseBet * Pow2(n + 1) == 2 * (baseBet * Pow2(n))
  {
    assert Pow2(n + 1) == 2 * Pow2(n);
  }

  /** The stake after `consecutiveLosses` losses in a row: the base bet doubled that many times. */
  function CalculateNextBetAmount(baseBet: Cents, consecutiveLosses: int): (r: Result<Cents, StrategyError>)
    ensures consecutiveLosses < 0 ==> r == Failure(NegativeLosses)
    ensures consecutiveLosses >= 0 && baseBet <= 0 ==> r == Failure(BaseBetNotPositive)
    ensures consecutiveLosses >= 0 && baseBet > 0 ==> r.Success? && r.value >= baseBet
  {
    if consecutiveLosses < 0 then Failure(NegativeLosses)
    else if baseBet <= 0 then Failure(BaseBetNotPositive)
    else
      MulAtLeast(baseBet, Pow2(consecutiveLosses));
      Success(baseBet * Pow2(consecutiveLosses))
  }

  lemma MulAtLeast(a: int, p: int)
    requires a > 0 && p >= 1
    ensures a * p >= a
  {
  }

  /** One more loss doubles the stake; no loss leaves the base bet. */
  lemma NextBetDoubles(baseBet: Cents, n: nat)
    requires baseBet > 0
    ensures CalculateNextBetAmount(baseBet, 0) == Success(baseBet)
    ensures CalculateNextBetAmount(baseBet, n + 1).value == 2 * CalculateNextBetAmount(baseBet, n).value
  {
    ProgressionStep(baseBet, n);
  }

  // ---------------------------------------------------------------------------------------
  // Consecutive losses

  /**
   * Losing bets since the most recent winning spin, counted from the newest spin backwards;
   * spins that neither win nor lose a bet are passed over.
   */
  function LossesSinceLastWin(spins: seq<Spin>): (k: nat)
    ensures k <= |spins|
  {
    if spins == [] then 0
    else
      var last := spins[|spins| - 1];
      if IsWinningSpin(last) then 0
      else LossesSinceLastWin(spins[..|spins| - 1]) + (if IsLosingBet(last) then 1 else 0)
  }

  /** Number of losing bets in a run of spins, counted front to back. */
  function CountLosingBets(spins: seq<Spin>): nat {
    if spins == [] then 0 else (if IsLosingBet(spins[0]) then 1 else 0) + CountLosingBets(spins[1..])
  }

  predicate NoWins(spins: seq<Spin>) {
    forall i :: 0 <= i < |spins| ==> !IsWinningSpin(spins[i])
  }

  lemma {:induction false} CountLosingBetsAppend(spins: seq<Spin>, spin: Spin)
    ensures CountLosingBets(spins + [spin]) == CountLosingBets(spins) + (if IsLosingBet(spin) then 1 else 0)
  {
    if spins != [] {
      CountLosingBetsAppend(spins[1..], spin);
      assert (spins + [spin])[1..] == spins[1..] + [spin];
    }
  }

  /** Without any win, every losing bet in the history counts. */
  lemma {:induction false} LossesWithoutWin(spins: seq<Spin>)
    requires NoWins(spins)
    ensures LossesSinceLastWin(spins) == CountLosingBets(spins)
  {
    if spins != [] {
      var prefix := spins[..|spins| - 1];
      assert NoWins(prefix) by {
        forall i | 0 <= i < |prefix| ensures !IsWinningSpin(prefix[i]) {
          assert prefix[i] == spins[i];
        }
      }
      LossesWithoutWin(prefix);
      CountLosingBetsAppend(prefix, spins[|spins| - 1]);
      assert prefix + [spins[|spins| - 1]] == spins;
    }
  }

  /** With a win in the history, exactly the losing bets after the last win count. */
  lemma {:induction false} LossesAfterLastWin(before: seq<Spin>, win: Spin, after: seq<Spin>)
    requires IsWinningSpin(win) && NoWins(after)
    ensures LossesSinceLastWin(before + [win] + after) == CountLosingBets(after)
  {
    var spins := before + [win] + after;
    if after == [] {
      assert spins[|spins| - 1] == win;
    } else {
      var prefix := after[..|after| - 1];
      var last := after[|after| - 1];
      assert NoWins(prefix) by {
        forall i | 0 <= i < |prefix| ensures !IsWinningSpin(prefix[i]) {
          assert prefix[i] == after[i];
        }
      }
      LossesAfterLastWin(before, win, prefix);
      assert spins[..|spins| - 1] == before + [win] + prefix;
      assert spins[|spins| - 1] == last;
      assert !IsWinningSpin(after[|after| - 1]);
      CountLosingBetsAppend(prefix, last);
      assert prefix + [last] == after;
    }
  }

  /** A spin that neither wins nor loses a bet changes nothing, wherever it stands. */
  lemma {:induction false} NeutralSpinIgnored(before: seq<Spin>, spin: Spin, after: seq<Spin>)
    requires !IsWinningSpin(spin) && !IsLosingBet(spin)
    ensures LossesSinceLastWin(before + [spin] + after) == LossesSinceLastWin(before + after)
  {
    var withSpin := before + [spin] + after;
    var without := before + after;
    if after == [] {
      assert withSpin[..|withSpin| - 1] == before;
      assert without == before;
    } else {
      var prefix := after[..|after| - 1];
      NeutralSpinIgnored(before, spin, prefix);
      assert withSpin[..|withSpin| - 1] == before + [spin] + prefix;
      assert without[..|without| - 1] == before + prefix;
      assert withSpin[|withSpin| - 1] == without[|without| - 1];
    }
  }

  /** The backward scan of the source: stop at the first winning spin, count losing bets. */
  method GetConsecutiveLossesFromEnd(spins: seq<Spin>) returns (consecutiveLosses: nat)
    ensures consecutiveLosses == LossesSinceLastWin(spins)
  {
    if |spins| == 0 {
      return 0;
    }
    consecutiveLosses := 0;
    var i := |spins| - 1;
    assert spins[..i + 1] == spins;
    while i >= 0
      invariant -1 <= i < |spins|
      invariant consecutiveLosses + LossesSinceLastWin(spins[..i + 1]) == LossesSinceLastWin(spins)
      decreases i + 1
    {
      var spin := spins[i];
      assert spins[..i + 1][..i] == spins[..i];
      assert spins[..i + 1][i] == spin;
      if IsWinningSpin(spin) {
        break;
      }
      if IsLosingBet(spin) {
        consecutiveLosses := consecutiveLosses + 1;
      }
      i := i - 1;
    }
  }

  // ---------------------------------------------------------------------------------------
  // How many losses the maximum bet allows

  /** The largest n with baseBet * 2^n <= maxBet. */
  function MaxConsecutiveLosses(baseBet: Cents, maxBet: Cents): (n: nat)
    requires 0 < baseBet <= maxBet
    ensures baseBet * Pow2(n) <= maxBet < baseBet * Pow2(n + 1)
    decreases maxBet - baseBet
  {
    if 2 * baseBet > maxBet then 0
    else
      var n := 1 + MaxConsecutiveLosses(2 * baseBet, maxBet);
      Pow2Shift(baseBet, n - 1);
      Pow2Shift(baseBet, n);
      n
  }

  lemma Pow2Shift(baseBet: int, n: nat)
    ensures (2 * baseBet) * Pow2(n) == baseBet * Pow2(n + 1)
  {
    assert Pow2(n + 1) == 2 * Pow2(n);
  }

  /** n losses in a row can still be followed by a bet exactly when n <= MaxConsecutiveLosses. */
  lemma MaxConsecutiveLossesIsLargest(baseBet: Cents, maxBet: Cents, n: nat)
    requires 0 < baseBet <= maxBet
    ensures baseBet * Pow2(n) <= maxBet <==> n <= MaxConsecutiveLosses(baseBet, maxBet)
  {
    var m := MaxConsecutiveLosses(baseBet, maxBet);
    if n < m {
      ProgressionIncreasing(baseBet, n, m);
    } else if n > m {
      if n > m + 1 {
        ProgressionIncreasing(baseBet, m + 1, n);
      }
    }
  }

  /** The doubling loop of the source. */
  method CalculateMaxConsecutiveLosses(baseBet: Cents, maxBet: Cents) returns (r: Result<nat, StrategyError>)
    ensures ValidateStrategyParameters(baseBet, maxBet).Fail? ==>
              r == Failure(ValidateStrategyParameters(baseBet, maxBet).error)
    ensures ValidateStrategyParameters(baseBet, maxBet).Pass? ==>
              r.Success? && baseBet * Pow2(r.value) <= maxBet < baseBet * Pow2(r.value + 1)
  {
    var check := ValidateStrategyParameters(baseBet, maxBet);
    if check.Fail? {
      return Failure(check.error);
    }
    var maxLosses: nat := 0;
    var currentBet := baseBet;
    while currentBet <= maxBet
      invariant currentBet == baseBet * Pow2(maxLosses) && currentBet >= baseBet
      invariant maxLosses > 0 ==> baseBet * Pow2(maxLosses - 1) <= maxBet
      decreases maxBet - currentBet
    {
      ProgressionStep(baseBet, maxLosses);
      currentBet := currentBet * 2;
      maxLosses := maxLosses + 1;
    }
    return Success(maxLosses - 1);
  }

  // ---------------------------------------------------------------------------------------
  // The recommendation

  /**
   * The next action for a session whose spins, oldest first, are `spins`. The parameters are
   * checked before the history is looked at.
   */
  function DetermineNextAction(spins: seq<Spin>, baseBet: Cents, maxBet: Cents): (r: Result<Recommendation, StrategyError>)
    ensures ValidateStrategyParameters(baseBet, maxBet).Fail? ==>
              r == Failure(ValidateStrategyParameters(baseBet, maxBet).error)
    ensures ValidateStrategyParameters(baseBet, maxBet).Pass? ==> r.Success?
    ensures r.Success? && spins == [] ==> r.value == Recommendation(Bet, baseBet, FirstSpin, 0)
    ensures r.Success? && spins != [] ==> r.value.consecutiveLosses == LossesSinceLastWin(spins)
  {
    var check := ValidateStrategyParameters(baseBet, maxBet);
    if check.Fail? then Failure(check.error)
    else if spins == [] then Success(Recommendation(Bet, baseBet, FirstSpin, 0))
    else
      var consecutiveLosses := LossesSinceLastWin(spins);
      var nextBetAmount := CalculateNextBetAmount(baseBet, consecutiveLosses).value;
      if nextBetAmount > maxBet then
        Success(Recommendation(Skip, 0, ExceedsMaximum(nextBetAmount, maxBet), consecutiveLosses))
      else
        var reason := if consecutiveLosses == 0 then ResetToBaseBet else Progression(consecutiveLosses);
        Success(Recommendation(Bet, nextBetAmount, reason, consecutiveLosses))
  }

  /**
   * With k consecutive losses, the stake is base * 2^k when that fits under the maximum bet,
   * and otherwise the recommendation is to skip, staking nothing.
   */
  lemma RecommendationFollowsProgression(spins: seq<Spin>, baseBet: Cents, maxBet: Cents)
    requires 0 < baseBet <= maxBet && spins != []
    ensures var k := LossesSinceLastWin(spins);
            var r := DetermineNextAction(spins, baseBet, maxBet).value;
            && r.consecutiveLosses == k
            && (baseBet * Pow2(k) > maxBet ==> r == Recommendation(Skip, 0, ExceedsMaximum(baseBet * Pow2(k), maxBet), k))
            && (baseBet * Pow2(k) <= maxBet ==> r.action == Bet && r.betAmount == baseBet * Pow2(k))
            && (baseBet * Pow2(k) <= maxBet && k == 0 ==> r.reason == ResetToBaseBet)
            && (baseBet * Pow2(k) <= maxBet && k > 0 ==> r.reason == Progression(k))
  {
  }

  /** A recommended bet always lies between the base bet and the maximum bet; a skip stakes nothing. */
  lemma RecommendationWithinLimits(spins: seq<Spin>, baseBet: Cents, maxBet: Cents)
    requires DetermineNextAction(spins, baseBet, maxBet).Success?
    ensures var r := DetermineNextAction(spins, baseBet, maxBet).value;
            && (r.action == Bet ==> baseBet <= r.betAmount <= maxBet)
            && (r.action == Skip ==> r.betAmount == 0)
  {
  }

  /** The strategy skips exactly when the losses in a row exceed what the configuration allows. */
  lemma SkipIffBeyondMaxLosses(spins: seq<Spin>, baseBet: Cents, maxBet: Cents)
    requires 0 < baseBet <= maxBet
    ensures var r := DetermineNextAction(spins, baseBet, maxBet).value;
            r.action == Skip <==> r.consecutiveLosses > MaxConsecutiveLosses(baseBet, maxBet)
  {
    if spins != [] {
      MaxConsecutiveLossesIsLargest(baseBet, maxBet, LossesSinceLastWin(spins));
    }
  }

  /** A win as the latest spin resets the progression to the base bet. */
  lemma WinResetsProgression(spins: seq<Spin>, win: Spin, baseBet: Cents, maxBet: Cents)
    requires 0 < baseBet <= maxBet && IsWinningSpin(win)
    ensures DetermineNextAction(spins + [win], baseBet, maxBet) == Success(Recommendation(Bet, baseBet, ResetToBaseBet, 0))
  {
    var s := spins + [win];
    assert s[|s| - 1] == win;
  }

  /** A lost bet doubles the recommended stake, or turns it into a skip when it would exceed the maximum. */
  lemma LossDoublesStake(spins: seq<Spin>, loss: Spin, baseBet: Cents, maxBet: Cents)
    requires 0 < baseBet <= maxBet && IsLosingBet(loss)
    requires DetermineNextAction(spins, baseBet, maxBet).value.action == Bet
    ensures var before := DetermineNextAction(spins, baseBet, maxBet).value;
            var after := DetermineNextAction(spins + [loss], baseBet, maxBet).value;
            && after.consecutiveLosses == before.consecutiveLosses + 1
            && (2 * before.betAmount <= maxBet ==> after.action == Bet && after.betAmount == 2 * before.betAmount)
            && (2 * before.betAmount > maxBet ==> after.action == Skip && after.betAmount == 0)
  {
    var s := spins + [loss];
    assert s[..|s| - 1] == spins;
    assert s[|s| - 1] == loss;
    ProgressionStep(baseBet, LossesSinceLastWin(spins));
  }

  function GetStrategyConfiguration(baseBet: Cents, maxBet: Cents): (r: Result<StrategyConfiguration, StrategyError>)
    ensures ValidateStrategyParameters(baseBet, maxBet).Fail? ==>
              r == Failure(ValidateStrategyParameters(baseBet, maxBet).error)
    ensures r.Success? ==>
              && r.value.strategyName == StrategyName
              && r.value.baseBet == baseBet && r.value.maxBet == maxBet
              && r.value.winningResult == WinningResult
              && r.value.progressionType == ProgressionType
              && baseBet * Pow2(r.value.maxConsecutiveLosses) <= maxBet < baseBet * Pow2(r.value.maxConsecutiveLosses + 1)
    ensures ValidateStrategyParameters(baseBet, maxBet).Pass? ==> r.Success?
  {
    var check := ValidateStrategyParameters(baseBet, maxBet);
    if check.Fail? then Failure(check.error)
    else Success(StrategyConfiguration(StrategyName, baseBet, maxBet, WinningResult,
                                       MaxConsecutiveLosses(baseBet, maxBet), ProgressionType))
  }

  // ---------------------------------------------------------------------------------------
  // Cases pinned down by the unit tests (amounts in cents)

  lemma ConsecutiveLossExamples()
    ensures LossesSinceLastWin([Spin(1, 1, "1", 100, 200), Spin(2, 1, "2", 100, -100),
                                Spin(3, 1, "3", 200, -200), Spin(4, 1, "4", 400, -400)]) == 3
    ensures LossesSinceLastWin([Spin(1, 1, "2", 100, -100), Spin(2, 1, "3", 200, -200),
                                Spin(3, 1, "1", 400, 800)]) == 0
  {
    var spins := [Spin(1, 1, "1", 100, 200), Spin(2, 1, "2", 100, -100),
                  Spin(3, 1, "3", 200, -200), Spin(4, 1, "4", 400, -400)];
    assert spins[..3][..2] == spins[..2] && spins[..2][..1] == spins[..1];
    assert LossesSinceLastWin(spins[..1]) == 0;
    assert LossesSinceLastWin(spins[..2]) == 1;
    assert LossesSinceLastWin(spins[..3]) == 2;
    assert spins[..4][..3] == spins[..3];
  }

  lemma SkipExample()
    ensures DetermineNextAction([Spin(1, 1, "2", 100, -100), Spin(2, 1, "3", 200, -200),
                                 Spin(3, 1, "4", 400, -400), Spin(4, 1, "5", 800, -800)], 100, 1000)
            == Success(Recommendation(Skip, 0, ExceedsMaximum(1600, 1000), 4))
  {
    var spins := [Spin(1, 1, "2", 100, -100), Spin(2, 1, "3", 200, -200),
                  Spin(3, 1, "4", 400, -400), Spin(4, 1, "5", 800, -800)];
    assert spins[..3][..2] == spins[..2] && spins[..2][..1] == spins[..1] && spins[..1][..0] == [];
    assert LossesSinceLastWin(spins[..1]) == 1;
    assert LossesSinceLastWin(spins[..2]) == 2;
    assert LossesSinceLastWin(spins[..3]) == 3;
    assert spins[..4][..3] == spins[..3];
    assert LossesSinceLastWin(spins) == 4;
    assert Pow2(4) == 16;
  }

  /** Whole-unit limits are reported without a fractional part, as PHP prints integral floats. */
  lemma ExceedsMaximumWholeText(nextUnits: nat, maxUnits: nat)
    ensures ReasonText(ExceedsMaximum(100 * nextUnits, 100 * maxUnits))
         == "Next bet amount (" + NatToString(nextUnits) + ") exceeds maximum bet limit ("
            + NatToString(maxUnits) + ")"
  {
    CentsToStringWhole(nextUnits);
    CentsToStringWhole(maxUnits);
  }

  /** The exception messages the unit tests expect from invalid parameters. */
  lemma ParameterErrorMessages()
    ensures ErrorMessage(CalculateNextBetAmount(100, -1).error) == "Consecutive losses cannot be negative"
    ensures ErrorMessage(CalculateNextBetAmount(0, 1).error) == "Base bet must be positive"
    ensures ErrorMessage(ValidateStrategyParameters(0, 10000).error) == "Base bet must be positive"
    ensures ErrorMessage(ValidateStrategyParameters(100, 0).error) == "Maximum bet must be positive"
    ensures ErrorMessage(ValidateStrategyParameters(1000, 500).error) == "Base bet cannot exceed maximum bet"
  {
  }

  /** With the default parameters, 1.00 and 1000.00: an empty session starts at 1.00, and nine losses in a row fit. */
  lemma DefaultParametersExample()
    ensures DetermineNextAction([], DefaultBaseBet, DefaultMaxBet) == Success(Recommendation(Bet, 100, FirstSpin, 0))
    ensures GetStrategyConfiguration(DefaultBaseBet, DefaultMaxBet).value.maxConsecutiveLosses == 9
  {
    var m := MaxConsecutiveLosses(DefaultBaseBet, DefaultMaxBet);
    Pow2NineAndTen();
    MaxConsecutiveLossesIsLargest(DefaultBaseBet, DefaultMaxBet, 9);
    MaxConsecutiveLossesIsLargest(DefaultBaseBet, DefaultMaxBet, 10);
    assert 9 <= m < 10;
  }

  lemma Pow2NineAndTen()
    ensures Pow2(9) == 512 && Pow2(10) == 1024
  {
    assert Pow2(4) == 16;
    assert Pow2(8) == 256;
  }

  lemma MaxConsecutiveLossesExamples()
    ensures MaxConsecutiveLosses(100, 800) == 3
    ensures MaxConsecutiveLosses(200, 1600) == 3
    ensures MaxConsecutiveLosses(100, 1500) == 3
    ensures MaxConsecutiveLosses(200, 5000) == 4
  {
  }
}
