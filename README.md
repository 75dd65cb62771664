# Monopoly Live assistant: a verified model of its core

This project models the core of the Monopoly Live assistant, a web application for recording
spins of the Monopoly Live game show. The model covers five parts:

- **The Martingale "Bet on 1" strategy** (`martingale.dfy`). From a session's spin history it decides whether
  to bet and how much. The stake doubles after each lost bet and goes back to the base bet after
  a win. It skips when the doubled stake would exceed the maximum bet.
- **P/L calculations** (`pl_calculation.dfy`). This covers the total P/L, the running totals per spin, the session
  statistics record (counts, win rate, extremes, rounded averages), the empty-session statistics and
  the session-data validation.
- **The session store** (`session_lifecycle.dfy`, a class). It handles creating a session, adding
  a spin to it, closing it and reading it back. Each of these has the source's lookup, ownership
  and open-state checks, in the same order.
- **The spin request** (`spin_request.dfy`). This is the rule lists of a request to record a
  spin, interpreted as the framework's validator does, with the request's own messages. It also
  covers the authorisation check.
- **Front-end display helpers** (`display_utils.dfy`, `betting_status.dfy`, `spin_history.dfy`).
  These cover the signed, coloured profit/loss text, "time ago" labels, mock timestamps, the
  betting-status card's helpers and placeholder, and the spin-history card. The card's part is
  the segment labels and badge colours, the newest-first order, the `maxSpins` cut and the
  default data.

Shared modules:

- `wrappers.dfy`: `Option`, `Result` and `Outcome`.
- `money.dfy`: money as integer cents and PHP-style rounding (half away from zero).
- `models.dfy`: the spin and session records.
- `text.dfy`: decimal rendering of numbers.

Where the back end works on `decimal(10,2)` columns, amounts are whole cents.
Averages are rounded to cents. The win rate is kept in hundredths of a percent.
The front end's JavaScript numbers are `real`s.

## Model

| member | source | states |
|---|---|---|
| Martingale.IsWinningSpin | app/Services/MartingaleStrategyService.php:127-130 | a winning spin made a profit and is never also a lost bet |
| Martingale.IsLosingBet | app/Services/MartingaleStrategyService.php:138-141 | a lost bet always has a negative P/L |
| Martingale.ReasonText | app/Services/MartingaleStrategyService.php:42-64 | the reason's first letter tells its kind: first spin, reset after a win, progression, or limit exceeded |
| Martingale.ValidateStrategyParameters | app/Services/MartingaleStrategyService.php:150-163 | passes exactly when 0 < base <= max; otherwise the first failing check's error, in the source's order |
| Martingale.CalculateNextBetAmount | app/Services/MartingaleStrategyService.php:76-88 | negative losses and a non-positive base bet are errors, checked in that order; otherwise the stake is at least the base bet |
| Martingale.NextBetDoubles | app/Services/MartingaleStrategyService.php:86-87 | no loss gives the base bet, and each further loss doubles the stake |
| Martingale.Pow2Increasing | app/Services/MartingaleStrategyService.php:87 | the doubling factor strictly grows with the number of losses |
| Martingale.LossesSinceLastWin | app/Services/MartingaleStrategyService.php:96-119 | the number counted never exceeds the number of spins |
| Martingale.GetConsecutiveLossesFromEnd | app/Services/MartingaleStrategyService.php:96-119 | the backward loop that stops at the first win returns exactly LossesSinceLastWin |
| Martingale.LossesWithoutWin | app/Services/MartingaleStrategyService.php:105-116 | in a history without a winning spin, every losing bet counts |
| Martingale.LossesAfterLastWin | app/Services/MartingaleStrategyService.php:105-116 | with a win in the history, exactly the losing bets after the last win count |
| Martingale.NeutralSpinIgnored | app/Services/MartingaleStrategyService.php:127-141 | a spin that is neither a win ("1" with profit) nor a lost bet (stake with loss) changes nothing, wherever it stands |
| Martingale.CountLosingBetsAppend | app/Services/MartingaleStrategyService.php:138-141 | appending a spin adds one to the losing-bet count exactly when it is a lost bet |
| Martingale.MaxConsecutiveLosses | app/Services/MartingaleStrategyService.php:172-185 | the largest n with base * 2^n <= max |
| Martingale.MaxConsecutiveLossesIsLargest | app/Services/MartingaleStrategyService.php:172-185 | base * 2^n <= max holds exactly when n <= MaxConsecutiveLosses |
| Martingale.CalculateMaxConsecutiveLosses | app/Services/MartingaleStrategyService.php:172-185 | the doubling loop returns the parameter error, or the n with base * 2^n <= max < base * 2^(n+1) |
| Martingale.DetermineNextAction | app/Services/MartingaleStrategyService.php:29-67 | parameters are checked first; an empty history bets the base bet with the first-spin reason; otherwise the losses reported are LossesSinceLastWin |
| Martingale.RecommendationFollowsProgression | app/Services/MartingaleStrategyService.php:47-66 | with k losses: bet base * 2^k if it fits under the maximum (reset reason for k = 0, progression reason otherwise), else skip with stake 0 and both amounts in the reason |
| Martingale.RecommendationWithinLimits | app/Services/MartingaleStrategyService.php:50-66 | a recommended bet lies between base and maximum; a skip stakes nothing |
| Martingale.SkipIffBeyondMaxLosses | app/Services/MartingaleStrategyService.php:50-57 | the strategy skips exactly when the losses exceed the configured maximum number of consecutive losses |
| Martingale.WinResetsProgression | app/Services/MartingaleStrategyService.php:108-111 | a winning latest spin gives a base-bet recommendation with the reset reason |
| Martingale.LossDoublesStake | app/Services/MartingaleStrategyService.php:38-66 | after any history, including an empty one, one more lost bet raises the losses by one and doubles the stake, or turns it into a skip when the double exceeds the maximum |
| Martingale.GetStrategyConfiguration | app/Services/MartingaleStrategyService.php:194-208 | parameter errors are passed through; otherwise the fixed name, winning result and progression text, the given amounts, and the maximum consecutive losses |
| Martingale.ExceedsMaximumWholeText | app/Services/MartingaleStrategyService.php:54 | whole-unit amounts appear in the skip reason without a fractional part |
| Martingale.ConsecutiveLossExamples | tests/Unit/MartingaleStrategyServiceTest.php:137-164 | the losses counted in the unit tests' histories: 3 after a win and three losses, 0 when the last spin won |
| Martingale.SkipExample | tests/Unit/MartingaleStrategyServiceTest.php:77-92 | four losses with base 1.00 and maximum 10.00 give a skip with 16.00 against 10.00 |
| Martingale.ParameterErrorMessages | tests/Unit/MartingaleStrategyServiceTest.php:107-223 | the exception messages the unit tests expect for negative losses, a zero base bet, a zero maximum and a base above the maximum |
| Martingale.DefaultParametersExample | app/Services/MartingaleStrategyService.php:17-18 | with the defaults 1.00 and 1000.00, an empty session bets 1.00 with the first-spin reason and nine losses in a row fit under the maximum |
| Martingale.MaxConsecutiveLossesExamples | tests/Unit/MartingaleStrategyServiceTest.php:225-239 | the test's limits: (1, 8), (2, 16) and (1, 15) allow 3 losses and (2, 50) allows 4 |
| Money.RoundDiv | app/Services/PLCalculationService.php:111-117 | the quotient rounded half away from zero, as PHP's round: within half a unit of the exact value |
| Money.RoundDivExact | app/Services/PLCalculationService.php:111-117 | rounding an exact quotient returns it |
| Money.RoundDivWithin | app/Services/PLCalculationService.php:102-111 | rounding a quotient in [0, m] stays in [0, m] |
| Text.NatToString | app/Services/MartingaleStrategyService.php:64 | the decimal text of a count is a non-empty digit string, one digit exactly below ten |
| Text.NatToStringRoundTrip | app/Services/MartingaleStrategyService.php:64 | reading the decimal text back gives the number |
| Text.CentsToStringWhole | app/Services/MartingaleStrategyService.php:54 | a whole amount of units is written as its integer text |
| PLCalculation.TotalPL | app/Services/PLCalculationService.php:25-28 | the sum of the pl column: not negative when no spin lost, not positive when no spin won |
| PLCalculation.TotalPLAppend | app/Services/PLCalculationService.php:25-28 | the total P/L of a concatenation is the sum of the totals |
| PLCalculation.TotalPLPermutation | app/Services/PLCalculationService.php:25-28 | the total does not depend on the order the spins are read in |
| PLCalculation.CalculateRunningPLTotals | app/Services/PLCalculationService.php:36-57 | entry i carries spin i's id, its P/L and the total of spins 0..i; no spins give no entries |
| PLCalculation.RunningTotalsStep | app/Services/PLCalculationService.php:44-54 | the first running total is the first P/L; each later one adds that spin's P/L to the previous |
| PLCalculation.LastRunningTotalIsTotal | app/Services/PLCalculationService.php:25-57 | the last running total equals the session's total P/L |
| PLCalculation.CountsPartition | app/Services/PLCalculationService.php:87-96 | winning, losing and break-even counts add up to the number of spins |
| PLCalculation.CountKindPermutation | app/Services/PLCalculationService.php:83-100 | each count does not depend on spin order |
| PLCalculation.CountKindAppend | app/Services/PLCalculationService.php:83-100 | counts of a concatenation add up |
| PLCalculation.LargestWin | app/Services/PLCalculationService.php:80-90 | at least 0 and every P/L, and either 0 or some spin's P/L |
| PLCalculation.LargestLoss | app/Services/PLCalculationService.php:81-93 | at most 0 and every P/L, and either 0 or some spin's P/L |
| PLCalculation.EmptySessionStatistics | app/Services/PLCalculationService.php:156-172 | every count, amount, rate and extreme is 0, and the session is not profitable |
| PLCalculation.Statistics | app/Services/PLCalculationService.php:65-120 | the record counts every spin, its three counts partition them, its total is the total P/L, and it is profitable iff that total is positive |
| PLCalculation.GenerateSessionStatistics | app/Services/PLCalculationService.php:65-120 | the single-pass loop returns the statistics record Statistics(spins), the empty record for no spins |
| PLCalculation.StatisticsConsistent | app/Services/PLCalculationService.php:65-172 | counts partition the spins, the win rate lies in 0..100 %, the extremes have the right signs, profitable iff total P/L > 0, every rounded value within half a unit of its exact value, and the empty record for no spins |
| PLCalculation.StatisticsTotalAgrees | app/Services/PLCalculationService.php:98-112 | the statistics' total P/L equals the total and the last running total |
| PLCalculation.StatisticsExample | tests/Unit/PLCalculationServiceTest.php:132-158 | a five-spin session: 2 wins, 2 losses, 1 break-even, 40 % win rate, totals 8.75 and 25.75, extremes 15.50 and -10.00, averages 5.15 and 1.75, profitable |
| PLCalculation.InvalidRowCountZero | app/Services/PLCalculationService.php:139-146 | no invalid row is counted exactly when no row has a missing P/L, a missing stake or a negative stake |
| PLCalculation.InvalidRowCountIsNumberOfInvalidRows | app/Services/PLCalculationService.php:139-144 | the count equals the number of positions holding an invalid row |
| PLCalculation.InvalidRowCountBound | app/Services/PLCalculationService.php:139-147 | the reported number of invalid spins is at most the number of spins |
| PLCalculation.ValidateSessionData | app/Services/PLCalculationService.php:128-149 | passes iff persisted, with a non-zero user id and no invalid spin row; errors in the source's order; the invalid-spins error carries the number of rows with a missing P/L, a missing stake or a negative stake |
| PLCalculation.RowsOf | app/Services/PLCalculationService.php:139-144 | one stored row per spin with its P/L and stake |
| PLCalculation.RecordedSessionPasses | app/Services/PLCalculationService.php:128-149 | a stored session with a user and non-negative stakes passes validation |
| SessionLifecycle.Access | app/Services/SpinService.php:34-38 | NotFound iff the id is unknown, Forbidden iff another user owns it, Pass iff the user owns it |
| SessionLifecycle.RequireOpen | app/Services/SpinService.php:34-43 | passes iff found, owned and open; the invalid-state error iff owned and closed; otherwise the access error |
| SessionLifecycle.ForbiddenBeforeClosed | app/Services/SpinService.php:36-43 | someone else's closed session reports Forbidden, not the closed-session error |
| SessionLifecycle.SessionsOfInsert | app/Services/SessionService.php:19-27 | storing under a new id adds one session to its owner and none to anyone else |
| SessionLifecycle.SessionStore.constructor | app/Services/SessionService.php:17-28 | an empty store whose ids start at 1, with its clock at the given time |
| SessionLifecycle.SessionStore.CreateSession | app/Services/SessionService.php:17-28 | an open session with the user, start time and no spins under a fresh id; the user owns one more session; the clock moves to the start time; nothing else changes |
| SessionLifecycle.SessionStore.CreateSpin | app/Services/SpinService.php:30-58 | errors exactly as RequireOpen with "Cannot add spins to a closed session."; on failure nothing changes; on success the spin is appended with a fresh id and the reloaded session is returned; the store invariant keeps every stored bet non-negative |
| SessionLifecycle.SessionStore.CloseSession | app/Http/Controllers/SessionController.php:69-109 | errors exactly as RequireOpen with "Session is already closed."; on success only the end time is set, and it is not before the start time; on failure nothing changes; the store invariant keeps every end time between its start time and the clock |
| SessionLifecycle.SessionStore.StoredSessionPasses | app/Services/PLCalculationService.php:128-149 | every stored session of a real user passes the statistics readiness check |
| SessionLifecycle.SessionStore.GetSessionWithDetails | app/Http/Controllers/SessionController.php:27-60 | the stored session, for its owner only; NotFound and Forbidden otherwise |
| SessionLifecycle.CloseTwiceScenario | app/Http/Controllers/SessionController.php:95-100 | the first close succeeds at the given time; the second reports the session already closed |
| SessionLifecycle.SpinAfterCloseScenario | app/Services/SpinService.php:41-43 | a spin on a closed session is refused, and reading the session back shows the spins as they were |
| SessionLifecycle.OtherUserScenario | app/Services/SpinService.php:36-38 | another user's spin, close and read are all Forbidden |
| SpinRequest.RequestRules | app/Http/Requests/SpinCreateRequest.php:23-30 | every field's rules start with required, once, and each field is either a string or a number |
| SpinRequest.Message | app/Http/Requests/SpinCreateRequest.php:37-48 | every rule the request uses has its own non-empty message |
| SpinRequest.RulesCoincide | app/Http/Requests/SpinCreateRequest.php:23-30 | the request's rules for the three fields are the spin model's rules |
| SpinRequest.Validate | app/Http/Requests/SpinCreateRequest.php:23-48 | exactly the fields with messages are reported, each with its field's messages |
| SpinRequest.ResultFieldErrors | app/Http/Requests/SpinCreateRequest.php:26 | an empty result reports only "required"; otherwise the string and the 255-character messages for the rules that fail |
| SpinRequest.BetAmountFieldErrors | app/Http/Requests/SpinCreateRequest.php:27 | an empty bet amount reports only "required"; otherwise the numeric and minimum-0 messages for the rules that fail |
| SpinRequest.PLFieldErrors | app/Http/Requests/SpinCreateRequest.php:28 | an empty P/L reports only "required"; otherwise the numeric message if it is not a number |
| SpinRequest.ResultErrorsIff | app/Http/Requests/SpinCreateRequest.php:26 | the result has no errors iff it is a non-blank string of at most 255 characters |
| SpinRequest.BetAmountErrorsIff | app/Http/Requests/SpinCreateRequest.php:27 | the bet amount has no errors iff it is a number >= 0 |
| SpinRequest.PLErrorsIff | app/Http/Requests/SpinCreateRequest.php:28 | the P/L has no errors iff it is a number |
| SpinRequest.ValidateIff | app/Http/Requests/SpinCreateRequest.php:23-30 | a request passes iff all three fields hold what their rules ask |
| SpinRequest.EmptyFieldReportsRequired | app/Http/Requests/SpinCreateRequest.php:37-48 | a missing, null or blank field reports its "required" message and nothing else |
| SpinRequest.EmptyRequestErrors | tests/Feature/SpinManagementApiTest.php:290-308 | an empty request reports all three fields with their "required" messages |
| SpinRequest.BooleanExamples | app/Http/Requests/SpinCreateRequest.php:23-30 | a JSON true or false passes `required` and the size rules and fails only each field's type rule |
| SpinRequest.BetAmountExamples | app/Http/Requests/SpinCreateRequest.php:44-45 | a negative bet fails only the minimum rule; a non-numeric one only the numeric rule |
| SpinRequest.ResultExamples | app/Http/Requests/SpinCreateRequest.php:41-42 | an over-long result fails only the length rule; a number only the string rule |
| SpinRequest.Authorize | app/Http/Requests/SpinCreateRequest.php:12-16 | allowed iff a user is authenticated |
| DisplayUtils.FormatProfitLoss | resources/js/lib/utils.ts:87-110 | "+" and green for a profit, "-" and red for a loss, unsigned and muted for zero, each around the formatted magnitude |
| DisplayUtils.ColourBySign | resources/js/lib/utils.ts:95-104 | the colour depends only on the sign |
| DisplayUtils.ColourDeterminesSign | resources/js/lib/utils.ts:95-104 | equal colours mean equal signs |
| DisplayUtils.NegationMirrors | resources/js/lib/utils.ts:91-104 | a profit and the equal loss differ only in the sign character and swap colours |
| DisplayUtils.ColourFromText | resources/js/lib/utils.ts:91-104 | with a formatter that writes no sign, the first character tells the colour |
| DisplayUtils.RelativeTimeOf | resources/js/lib/utils.ts:44-57 | "just now" below a minute (or in the future), whole minutes below an hour, whole hours below a day, else whole days, each the floor of the elapsed time |
| DisplayUtils.FormatRelativeTime | resources/js/lib/utils.ts:44-57 | the label is "Just now" exactly when less than a minute has passed |
| DisplayUtils.RelativeTimeTextInjective | resources/js/lib/utils.ts:49-56 | different buckets give different labels |
| DisplayUtils.GenerateMockTimestamp | resources/js/lib/utils.ts:64-68 | the timestamp lies exactly minutesAgo minutes before now |
| DisplayUtils.MockTimestampRoundTrip | resources/js/lib/utils.ts:44-68 | a mock timestamp k minutes back is labelled with k minutes, or the hours or days they make |
| BettingStatus.StatusOrDefault | resources/js/components/betting-status-card.tsx:9-18 | the given data, or the placeholder when there is none |
| BettingStatus.FormatPL | resources/js/components/betting-status-card.tsx:27-32 | "+" before a profit's magnitude, "-" before a loss's, nothing for zero |
| BettingStatus.GetPLColor | resources/js/components/betting-status-card.tsx:34-38 | green, red or muted by sign |
| BettingStatus.AgreesWithSharedFormatter | resources/js/components/betting-status-card.tsx:27-38 | the card's helpers render exactly as the shared profit/loss formatter |
| BettingStatus.DefaultCardShowsZero | resources/js/components/betting-status-card.tsx:9-18 | without data: "Ready to Start", no spins, an unsigned muted zero |
| SpinHistory.FormatDisplayResult | resources/js/components/spin-history-card.tsx:170-175 | "Chance" and "4 Rolls" are shown as they are, any other result as "Segment " and the result |
| SpinHistory.FormatDisplayResultInjective | resources/js/components/spin-history-card.tsx:170-175 | different results get different labels |
| SpinHistory.GetResultBadgeColor | resources/js/components/spin-history-card.tsx:182-184 | the segment's colour from the table; for an Object.prototype member name such as "constructor", the inherited member the plain-object lookup finds; the gray default for anything else |
| SpinHistory.SegmentTableKeys | resources/js/components/spin-history-card.tsx:19-26 | the table covers exactly 1, 2, 5, 10, Chance and 4 Rolls, none of them an inherited member name |
| SpinHistory.InheritedMemberTextInjective | resources/js/components/spin-history-card.tsx:182-184 | different inherited member names give different class text |
| SpinHistory.BadgeIsNotInherited | resources/js/components/spin-history-card.tsx:182-184 | a badge's classes never equal an inherited member's text |
| SpinHistory.BadgeClassesInjective | resources/js/components/spin-history-card.tsx:19-28 | different colours give different class strings |
| SpinHistory.BadgeColorIdentifiesSegment | resources/js/components/spin-history-card.tsx:19-28 | equal badges mean the same result, or two ordinary results that are neither segments nor inherited member names and so both show gray |
| SpinHistory.InsertByTime | resources/js/components/spin-history-card.tsx:201-203 | inserting into a newest-first list keeps it newest first and adds exactly the element |
| SpinHistory.SortNewestFirst | resources/js/components/spin-history-card.tsx:201-203 | a permutation of the spins, newest first |
| SpinHistory.SliceEnd | resources/js/components/spin-history-card.tsx:204 | JavaScript slice's end: min(n, len) for n >= 0, len + n clamped at 0 for negative n |
| SpinHistory.DisplayedSpins | resources/js/components/spin-history-card.tsx:201-205 | the listed spins are newest first and are drawn from the given spins |
| SpinHistory.DisplayedShape | resources/js/components/spin-history-card.tsx:187-205 | the shown spins are newest first and at most maxSpins of them, 10 by default |
| SpinHistory.DisplayedAreMostRecent | resources/js/components/spin-history-card.tsx:201-205 | shown and hidden spins together are the spins, and every shown spin is at least as recent as every hidden one |
| SpinHistory.EmptyStateIff | resources/js/components/spin-history-card.tsx:232 | the empty state shows iff there are no spins or maxSpins is 0 |
| SpinHistory.HistoryOrDefault | resources/js/components/spin-history-card.tsx:163-187 | the given data, or the mixed placeholder scenario |
| SpinHistory.DefaultHistoryListed | resources/js/components/spin-history-card.tsx:57-93 | without data, the placeholder spins are shown in their listed order, which is already newest first |
| SpinHistory.SortKeepsNewestFirst | resources/js/components/spin-history-card.tsx:201-203 | sorting a list that is already newest first leaves it unchanged |

## Left out

- Numeric strings: the validator's `numeric` rule also accepts strings such as "12.5". The model takes a request value as already decoded and treats only numbers as numeric.
- Laravel's default messages: every rule used has a custom message, so the defaults never show.
- The `session_id` rule of the spin model's own rules: it is not part of a request body.
- PHP floats: back-end amounts are exact integer cents. Float rounding error and the `decimal(10,2)` column width are not modelled.
- Martingale.ReasonText: the skip reason's amounts are PHP floats interpolated into text. PHP writes them with 14 significant digits and switches to exponent form for large values (1.0E+15); the model writes every digit of the amount, with trailing zero cents dropped.
- PLCalculation.GenerateSessionStatistics: the win rate is kept in hundredths of a percent and the averages in cents. The source's `round(x, 2)` yields a PHP float.
- formatDetailedSessionResponse is not part of this model: SessionService::formatDetailedSessionResponse is called but is not in the source. The store returns the session record itself, without the JSON envelopes of formatSessionResponse and formatSpinResponse.
- The close and read paths of the session service are not in the source. Their order of checks comes from the controller's exception mapping and the feature tests: not found, then not owner, then already closed.
- A request by someone who does not own the session fails with Forbidden (403), after the not-found check; the model follows the code.
- The wall clock is a `now` parameter. The store keeps the latest time it was given, and its callers pass times that do not run backwards, as one server clock does.
- HTTP status codes, ISO 8601 timestamps, `created_at`/`updated_at`, the user relation loaded with a session, and `formatTimestamp`'s clock formats are left out.
- Spin order: spins are ordered by `created_at`, and ties between equal timestamps are not modelled. The model uses insertion order.
- Database transactions, concurrency, cascade deletes, factories, and authentication beyond "a user is present" are left out. The transaction's all-or-nothing effect is stated as "on failure nothing changes".
- `formatCurrency` uses the locale service `Intl.NumberFormat`, so it is passed in as a function parameter. `new Date()` is passed in as `nowMs`.
- DisplayUtils.FormatProfitLoss: amounts are reals, so NaN and the infinities are not modelled; the source gives NaN the muted colour and formats it with `formatCurrency`.
- DisplayUtils.RelativeTimeOf: invalid dates (NaN) and non-integer millisecond values are not modelled.
- DisplayUtils.GenerateMockTimestamp: `minutesAgo` is an integer, so fractional minutes are not modelled. The ISO string conversion is left out.
- SpinHistory.SortNewestFirst: the sort is proved to be an ordered permutation, but the stability of JavaScript's sort on equal timestamps is not stated.
- SpinHistory.GetResultBadgeColor: the text of an inherited native function is engine-specific; the model uses V8's form ("function toString() { [native code] }"), and other engines lay it out differently.
- The `showSpinNumbers` flag only chooses between the spin number and the time in each rendered row, so it is not modelled.
- React rendering, the development console log, and the card markup and accessibility attributes are left out. The other mock scenarios (empty, single spin, all winning) are data only and are not modelled.
