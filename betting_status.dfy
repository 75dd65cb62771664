/**
 * The betting-status card's data and its profit/loss helpers: a signed amount text and a
 * colour class chosen by the sign, and the placeholder record shown when no data is given.
 */
module BettingStatus {
  import opened Wrappers
  import DisplayUtils

  datatype BettingStatusData = BettingStatusData(
    sessionStatus: string,
    currentBet: real,
    totalPL: real,
    sessionDuration: string,
    spinCount: int)

  /** The placeholder: not started, a bet of 10, no P/L, zero duration, no spins. */
  const DefaultBettingStatus := BettingStatusData("Ready to Start", 10.0, 0.0, "00:00:00", 0)

  /** The data shown: the given record, or the placeholder when there is none. */
  function StatusOrDefault(data: Option<BettingStatusData>): (shown: BettingStatusData)
    ensures data.Some? ==> shown == data.value
    ensures data.None? ==> shown == DefaultBettingStatus
  {
    if data.Some? then data.value else DefaultBettingStatus
  }

  /** The amount's magnitude, formatted, with "+" for a profit and "-" for a loss. */
  function FormatPL(amount: real, formatCurrency: real -> string): (text: string)
    ensures amount > 0.0 ==> text == "+" + formatCurrency(DisplayUtils.Abs(amount))
    ensures amount < 0.0 ==> text == "-" + formatCurrency(DisplayUtils.Abs(amount))
    ensures amount == 0.0 ==> text == formatCurrency(0.0)
  {
    var formatted := formatCurrency(DisplayUtils.Abs(amount));
    if amount > 0.0 then "+" + formatted
    else if amount < 0.0 then "-" + formatted
    else formatted
  }

  /** Green for a profit, red for a loss, muted for zero. */
  function GetPLColor(amount: real): (colorClass: string)
    ensures amount > 0.0 ==> colorClass == DisplayUtils.PositiveClass
    ensures amount < 0.0 ==> colorClass == DisplayUtils.NegativeClass
    ensures amount == 0.0 ==> colorClass == DisplayUtils.NeutralClass
  {
    if amount > 0.0 then "text-green-600 dark:text-green-400"
    else if amount < 0.0 then "text-red-600 dark:text-red-400"
    else "text-muted-foreground"
  }

  /** The card's helpers render an amount exactly as the shared profit/loss formatter does. */
  lemma AgreesWithSharedFormatter(amount: real, formatCurrency: real -> string)
    ensures FormatPL(amount, formatCurrency) == DisplayUtils.FormatProfitLoss(amount, formatCurrency).formatted
    ensures GetPLColor(amount) == DisplayUtils.FormatProfitLoss(amount, formatCurrency).colorClass
  {
  }

  /** Without data the card shows "Ready to Start", no spins, and an unsigned, muted zero P/L. */
  lemma DefaultCardShowsZero(formatCurrency: real -> string)
    ensures StatusOrDefault(None).sessionStatus == "Ready to Start"
    ensures StatusOrDefault(None).spinCount == 0
    ensures FormatPL(StatusOrDefault(None).totalPL, formatCurrency) == formatCurrency(0.0)
    ensures GetPLColor(StatusOrDefault(None).totalPL) == DisplayUtils.NeutralClass
  {
  }
}
