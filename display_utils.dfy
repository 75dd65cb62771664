/**
 * Display helpers of the front end: the signed, coloured rendering of a profit or loss, the
 * "time ago" label of a timestamp, and mock timestamps a number of minutes in the past.
 * Amounts are JavaScript numbers (`real` here, without NaN or infinities); timestamps are
 * milliseconds since the epoch. The currency formatter is a locale service and is passed in
 * as a function; the current time is passed in as `nowMs`.
 */
module DisplayUtils {
  import opened Text

  // ---------------------------------------------------------------------------------------
  // Profit/loss rendering

  const PositiveClass := "text-green-600 dark:text-green-400"
  const NegativeClass := "text-red-600 dark:text-red-400"
  const NeutralClass := "text-muted-foreground"

  /** The text of an amount and the colour classes it is shown in. */
  datatype ProfitLossDisplay = ProfitLossDisplay(formatted: string, colorClass: string)

  function Abs(a: real): (r: real)
    ensures r >= 0.0 && (r == a || r == -a)
  {
    if a < 0.0 then -a else a
  }

  /** The sign of an amount: 1, -1 or 0. */
  function Sign(a: real): int {
    if a > 0.0 then 1 else if a < 0.0 then -1 else 0
  }

  /**
   * The formatted magnitude, prefixed with "+" for a profit and "-" for a loss, in green,
   * red, or the muted colour for zero.
   */
  function FormatProfitLoss(amount: real, formatCurrency: real -> string): (d: ProfitLossDisplay)
    ensures amount > 0.0 ==> d == ProfitLossDisplay("+" + formatCurrency(Abs(amount)), PositiveClass)
    ensures amount < 0.0 ==> d == ProfitLossDisplay("-" + formatCurrency(Abs(amount)), NegativeClass)
    ensures amount == 0.0 ==> d == ProfitLossDisplay(formatCurrency(0.0), NeutralClass)
  {
    var formatted := formatCurrency(Abs(amount));
    if amount > 0.0 then ProfitLossDisplay("+" + formatted, PositiveClass)
    else if amount < 0.0 then ProfitLossDisplay("-" + formatted, NegativeClass)
    else ProfitLossDisplay(formatted, NeutralClass)
  }

  /** The colour depends on the sign of the amount alone, whatever the formatter. */
  lemma ColourBySign(a: real, b: real, f: real -> string, g: real -> string)
    requires Sign(a) == Sign(b)
    ensures FormatProfitLoss(a, f).colorClass == FormatProfitLoss(b, g).colorClass
  {
  }

  /** The three colours are distinct, so the colour tells the sign. */
  lemma ColourDeterminesSign(a: real, b: real, f: real -> string)
    requires FormatProfitLoss(a, f).colorClass == FormatProfitLoss(b, f).colorClass
    ensures Sign(a) == Sign(b)
  {
    assert PositiveClass[5] != NegativeClass[5];
    assert |NeutralClass| != |PositiveClass| && |NeutralClass| != |NegativeClass|;
  }

  /** A profit and the equal loss are written alike but for the sign character, in swapped colours. */
  lemma NegationMirrors(a: real, f: real -> string)
    requires a > 0.0
    ensures FormatProfitLoss(-a, f).formatted[1..] == FormatProfitLoss(a, f).formatted[1..]
    ensures FormatProfitLoss(a, f).formatted[0] == '+' && FormatProfitLoss(-a, f).formatted[0] == '-'
    ensures FormatProfitLoss(a, f).colorClass == PositiveClass
    ensures FormatProfitLoss(-a, f).colorClass == NegativeClass
  {
    assert Abs(-a) == Abs(a);
    var s := f(Abs(a));
    assert ("+" + s)[1..] == s && ("-" + s)[1..] == s;
  }

  /** When the formatter never writes a leading sign, the text's first character tells the colour. */
  lemma ColourFromText(a: real, f: real -> string)
    requires forall x :: |f(x)| > 0 && f(x)[0] != '+' && f(x)[0] != '-'
    ensures var d := FormatProfitLoss(a, f);
      d.colorClass == (if d.formatted[0] == '+' then PositiveClass
                       else if d.formatted[0] == '-' then NegativeClass
                       else NeutralClass)
  {
    var s := f(Abs(a));
    assert |s| > 0 && s[0] != '+' && s[0] != '-';
  }

  // ---------------------------------------------------------------------------------------
  // Relative time

  const MsPerMinute := 60000
  const MsPerHour := 3600000
  const MsPerDay := 86400000

  /** The buckets a time difference is reported in. */
  datatype RelativeTime = JustNow | MinutesAgo(minutes: nat) | HoursAgo(hours: nat) | DaysAgo(days: nat)

  /**
   * The bucket of a date relative to now: whole minutes below an hour, whole hours below a
   * day, else whole days, each the floor of the elapsed time; under a minute, or a date in
   * the future, is "just now".
   */
  function RelativeTimeOf(nowMs: int, dateMs: int): (r: RelativeTime)
    ensures r.JustNow? <==> nowMs - dateMs < MsPerMinute
    ensures r.MinutesAgo? <==> MsPerMinute <= nowMs - dateMs < MsPerHour
    ensures r.HoursAgo? <==> MsPerHour <= nowMs - dateMs < MsPerDay
    ensures r.DaysAgo? <==> MsPerDay <= nowMs - dateMs
    ensures r.MinutesAgo? ==>
      r.minutes * MsPerMinute <= nowMs - dateMs < (r.minutes + 1) * MsPerMinute
    ensures r.HoursAgo? ==>
      r.hours * MsPerHour <= nowMs - dateMs < (r.hours + 1) * MsPerHour
    ensures r.DaysAgo? ==>
      r.days * MsPerDay <= nowMs - dateMs < (r.days + 1) * MsPerDay
  {
    var diff := nowMs - dateMs;
    var diffInMins := diff / MsPerMinute;
    assert diffInMins / 60 == diff / MsPerHour;
    assert diffInMins / 60 / 24 == diff / MsPerDay;
    if diffInMins < 1 then JustNow
    else if diffInMins < 60 then MinutesAgo(diffInMins)
    else
      var diffInHours := diffInMins / 60;
      if diffInHours < 24 then HoursAgo(diffInHours)
      else DaysAgo(diffInHours / 24)
  }

  function RelativeTimeText(r: RelativeTime): string {
    match r
    case JustNow => "Just now"
    case MinutesAgo(m) => NatToString(m) + "m ago"
    case HoursAgo(h) => NatToString(h) + "h ago"
    case DaysAgo(d) => NatToString(d) + "d ago"
  }

  /** The label shown for a date, relative to now; "Just now" exactly under a minute. */
  function FormatRelativeTime(nowMs: int, dateMs: int): (text: string)
    ensures text == "Just now" <==> nowMs - dateMs < MsPerMinute
  {
    var r := RelativeTimeOf(nowMs, dateMs);
    var text := RelativeTimeText(r);
    assert !r.JustNow? ==> text[|text| - 1] == 'o';
    text
  }

  /** Different buckets are written differently: the label can be read back. */
  lemma RelativeTimeTextInjective(r1: RelativeTime, r2: RelativeTime)
    requires RelativeTimeText(r1) == RelativeTimeText(r2)
    ensures r1 == r2
  {
    match r1
    case JustNow =>
      if !r2.JustNow? {
        SuffixedNumberInjective(r2, r1);
      }
    case MinutesAgo(m) => SuffixedNumberInjective(r1, r2);
    case HoursAgo(h) => SuffixedNumberInjective(r1, r2);
    case DaysAgo(d) => SuffixedNumberInjective(r1, r2);
  }

  lemma SuffixedNumberInjective(r1: RelativeTime, r2: RelativeTime)
    requires !r1.JustNow? && RelativeTimeText(r1) == RelativeTimeText(r2)
    ensures r1 == r2
  {
    var t := RelativeTimeText(r1);
    var n1 := match r1 case MinutesAgo(m) => m case HoursAgo(h) => h case DaysAgo(d) => d case JustNow => 0;
    var s1 := NatToString(n1);
    assert t == s1 + t[|s1|..];
    assert t[|t| - 5] == (match r1 case MinutesAgo(_) => 'm' case HoursAgo(_) => 'h' case _ => 'd');
    if !r2.JustNow? {
      var n2 := match r2 case MinutesAgo(m) => m case HoursAgo(h) => h case DaysAgo(d) => d case JustNow => 0;
      var s2 := NatToString(n2);
      assert |s1| == |t| - 5 == |s2|;
      assert s1 == t[..|t| - 5] == s2;
      NatToStringRoundTrip(n1);
      NatToStringRoundTrip(n2);
    }
  }

  // ---------------------------------------------------------------------------------------
  // Mock timestamps

  /** The instant `minutesAgo` whole minutes before now. */
  function GenerateMockTimestamp(nowMs: int, minutesAgo: int): (t: int)
    ensures nowMs - t == minutesAgo * MsPerMinute
  {
    nowMs - minutesAgo * MsPerMinute
  }

  /** A mock timestamp k minutes back is labelled with k minutes, or the hours or days they make. */
  lemma MockTimestampRoundTrip(nowMs: int, k: int)
    ensures RelativeTimeOf(nowMs, GenerateMockTimestamp(nowMs, k))
         == if k < 1 then JustNow
            else if k < 60 then MinutesAgo(k)
            else if k / 60 < 24 then HoursAgo(k / 60)
            else DaysAgo(k / 60 / 24)
  {
    assert (k * MsPerMinute) / MsPerMinute == k;
  }
}
