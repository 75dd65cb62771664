/**
 * Profit/loss aggregation over the spins of one session: the total, the running totals in
 * creation order, the one-pass statistics record, and the readiness check run before them.
 * Amounts are cents; win rate and averages are rounded once, half away from zero.
 */
module PLCalculation {
  import opened Wrappers
  import opened Money
  import opened Models
  import opened Text

  // ---------------------------------------------------------------------------------------
  // Total P/L

  /**
   * The sum of the pl column over the spins: without a losing spin it is not negative,
   * without a winning spin not positive.
   */
  function TotalPL(spins: seq<Spin>): (total: Cents)
    ensures CountKind(spins, Losing) == 0 ==> total >= 0
    ensures CountKind(spins, Winning) == 0 ==> total <= 0
  {
    if |spins| == 0 then 0 else TotalPL(spins[..|spins| - 1]) + spins[|spins| - 1].pl
  }

  /** The sum of the bet_amount column over the spins. */
  function TotalBetAmount(spins: seq<Spin>): Cents {
    if |spins| == 0 then 0 else TotalBetAmount(spins[..|spins| - 1]) + spins[|spins| - 1].betAmount
  }

  /** Totals of consecutive runs of spins add up. */
  lemma {:induction false} TotalPLAppend(a: seq<Spin>, b: seq<Spin>)
    ensures TotalPL(a + b) == TotalPL(a) + TotalPL(b)
    decreases |b|
  {
    if |b| == 0 {
      assert a + b == a;
    } else {
      var b' := b[..|b| - 1];
      assert (a + b)[..|a + b| - 1] == a + b';
      TotalPLAppend(a, b');
    }
  }

  /** The total does not depend on the order in which the spins are summed. */
  lemma {:induction false} TotalPLPermutation(a: seq<Spin>, b: seq<Spin>)
    requires multiset(a) == multiset(b)
    ensures TotalPL(a) == TotalPL(b)
    decreases |a|
  {
    if |a| == 0 {
      assert |b| == |multiset(b)|;
    } else {
      var x := a[|a| - 1];
      var a' := a[..|a| - 1];
      var j := RemoveOne(a, b);
      TotalPLPermutation(a', b[..j] + b[j + 1..]);
      TotalPLWithout(b, j);
    }
  }

  /** Finds the last element of `a` in its permutation `b`; the rests are permutations too. */
  lemma RemoveOne(a: seq<Spin>, b: seq<Spin>) returns (j: nat)
    requires multiset(a) == multiset(b) && |a| > 0
    ensures j < |b| && b[j] == a[|a| - 1]
    ensures multiset(a[..|a| - 1]) == multiset(b[..j] + b[j + 1..])
  {
    var x := a[|a| - 1];
    assert a == a[..|a| - 1] + [x];
    assert x in multiset(b);
    j :| 0 <= j < |b| && b[j] == x;
    assert b == b[..j] + [x] + b[j + 1..];
    assert multiset(a[..|a| - 1]) == multiset(a) - multiset{x};
    assert multiset(b[..j] + b[j + 1..]) == multiset(b) - multiset{x};
  }

  /** Taking spin j out of the list takes its P/L out of the total. */
  lemma TotalPLWithout(b: seq<Spin>, j: nat)
    requires j < |b|
    ensures TotalPL(b) == TotalPL(b[..j] + b[j + 1..]) + b[j].pl
  {
    var front, back := b[..j], b[j + 1..];
    assert front + [b[j]] == b[..j + 1];
    assert b[..j + 1] + back == b;
    TotalPLAppend(front + [b[j]], back);
    assert (front + [b[j]])[..j] == front;
    TotalPLAppend(front, back);
  }

  // ---------------------------------------------------------------------------------------
  // Running totals

  /** One entry of the running-total list: the spin's id, its P/L and the total so far. */
  datatype RunningTotal = RunningTotal(spinId: nat, pl: Cents, runningTotal: Cents)

  /** `entries` has one entry per spin, copying its id and P/L and the total up to and including it. */
  predicate IsRunningTotals(spins: seq<Spin>, entries: seq<RunningTotal>) {
    |entries| == |spins| &&
    forall i :: 0 <= i < |spins| ==>
      entries[i] == RunningTotal(spins[i].id, spins[i].pl, TotalPL(spins[..i + 1]))
  }

  /** Running totals over spins given in creation order. */
  method CalculateRunningPLTotals(spins: seq<Spin>) returns (entries: seq<RunningTotal>)
    ensures IsRunningTotals(spins, entries)
  {
    if |spins| == 0 {
      return [];
    }
    var runningTotal := 0;
    entries := [];
    for i := 0 to |spins|
      invariant runningTotal == TotalPL(spins[..i])
      invariant |entries| == i
      invariant forall k :: 0 <= k < i ==>
        entries[k] == RunningTotal(spins[k].id, spins[k].pl, TotalPL(spins[..k + 1]))
    {
      assert spins[..i + 1][..i] == spins[..i];
      runningTotal := runningTotal + spins[i].pl;
      entries := entries + [RunningTotal(spins[i].id, spins[i].pl, runningTotal)];
    }
  }

  /** The first running total is the first P/L; each later one adds that spin's P/L to the previous. */
  lemma RunningTotalsStep(spins: seq<Spin>, entries: seq<RunningTotal>)
    requires IsRunningTotals(spins, entries)
    ensures |spins| > 0 ==> entries[0].runningTotal == spins[0].pl
    ensures forall i :: 1 <= i < |spins| ==>
      entries[i].runningTotal == entries[i - 1].runningTotal + spins[i].pl
  {
    if |spins| > 0 {
      assert spins[..1][..0] == [];
      assert TotalPL(spins[..1]) == TotalPL(spins[..1][..0]) + spins[0].pl;
    }
    forall i | 1 <= i < |spins|
      ensures entries[i].runningTotal == entries[i - 1].runningTotal + spins[i].pl
    {
      assert spins[..i + 1][..i] == spins[..i];
    }
  }

  /** The last running total is the session total. */
  lemma LastRunningTotalIsTotal(spins: seq<Spin>, entries: seq<RunningTotal>)
    requires IsRunningTotals(spins, entries) && |spins| > 0
    ensures entries[|entries| - 1].runningTotal == TotalPL(spins)
  {
    assert spins[..|spins|] == spins;
  }

  // ---------------------------------------------------------------------------------------
  // Statistics

  /** How a spin is counted: profit, loss, or neither. */
  datatype PLKind = Winning | Losing | BreakEven

  function KindOf(pl: Cents): PLKind {
    if pl > 0 then Winning else if pl < 0 then Losing else BreakEven
  }

  /** Number of spins of the given kind. */
  function CountKind(spins: seq<Spin>, kind: PLKind): nat {
    if |spins| == 0 then 0
    else CountKind(spins[..|spins| - 1], kind) + (if KindOf(spins[|spins| - 1].pl) == kind then 1 else 0)
  }

  /** Every spin is exactly one of winning, losing or break-even. */
  lemma {:induction false} CountsPartition(spins: seq<Spin>)
    ensures CountKind(spins, Winning) + CountKind(spins, Losing) + CountKind(spins, BreakEven) == |spins|
  {
    if |spins| > 0 {
      CountsPartition(spins[..|spins| - 1]);
    }
  }

  function Max(a: int, b: int): int {
    if a >= b then a else b
  }

  function Min(a: int, b: int): int {
    if a <= b then a else b
  }

  /** The largest profit of a winning spin, or 0 when no spin won. */
  function LargestWin(spins: seq<Spin>): (w: Cents)
    ensures w >= 0
    ensures forall i :: 0 <= i < |spins| ==> spins[i].pl <= w
    ensures w == 0 || exists i :: 0 <= i < |spins| && spins[i].pl == w
  {
    if |spins| == 0 then 0
    else
      var prefix := spins[..|spins| - 1];
      var pl := spins[|spins| - 1].pl;
      assert forall i :: 0 <= i < |prefix| ==> prefix[i] == spins[i];
      if pl > 0 then Max(LargestWin(prefix), pl) else LargestWin(prefix)
  }

  /** The largest loss (most negative P/L) of a losing spin, or 0 when no spin lost. */
  function LargestLoss(spins: seq<Spin>): (l: Cents)
    ensures l <= 0
    ensures forall i :: 0 <= i < |spins| ==> l <= spins[i].pl
    ensures l == 0 || exists i :: 0 <= i < |spins| && spins[i].pl == l
  {
    if |spins| == 0 then 0
    else
      var prefix := spins[..|spins| - 1];
      var pl := spins[|spins| - 1].pl;
      assert forall i :: 0 <= i < |prefix| ==> prefix[i] == spins[i];
      if pl < 0 then Min(LargestLoss(prefix), pl) else LargestLoss(prefix)
  }

  /**
   * The statistics record. `winRate` is the win percentage in hundredths of a percent
   * (40.00% is 4000); `averageBet` and `averagePLPerSpin` are in cents.
   */
  datatype SessionStatistics = SessionStatistics(
    totalSpins: nat,
    winningSpins: nat,
    losingSpins: nat,
    breakEvenSpins: nat,
    winRate: int,
    totalPL: Cents,
    totalBetAmount: Cents,
    largestWin: Cents,
    largestLoss: Cents,
    averageBet: Cents,
    averagePLPerSpin: Cents,
    isProfitable: bool)

  /** The fixed record reported for a session without spins. */
  function EmptySessionStatistics(): (s: SessionStatistics)
    ensures s.totalSpins == s.winningSpins == s.losingSpins == s.breakEvenSpins == 0
    ensures s.winRate == 0 && s.totalPL == 0 && s.totalBetAmount == 0
    ensures s.largestWin == 0 && s.largestLoss == 0 && s.averageBet == 0 && s.averagePLPerSpin == 0
    ensures !s.isProfitable
  {
    SessionStatistics(0, 0, 0, 0, 0, 0, 0, 0, 0, 0, 0, false)
  }

  /** What the statistics of a session are, field by field. */
  function Statistics(spins: seq<Spin>): (st: SessionStatistics)
    ensures st.totalSpins == |spins|
    ensures st.winningSpins + st.losingSpins + st.breakEvenSpins == |spins|
    ensures st.totalPL == TotalPL(spins)
    ensures st.isProfitable <==> TotalPL(spins) > 0
  {
    if |spins| == 0 then EmptySessionStatistics()
    else
      CountsPartition(spins);
      var n := |spins|;
      var wins := CountKind(spins, Winning);
      var total := TotalPL(spins);
      var bets := TotalBetAmount(spins);
      SessionStatistics(n, wins, CountKind(spins, Losing), CountKind(spins, BreakEven),
        RoundDiv(wins * 10000, n), total, bets, LargestWin(spins), LargestLoss(spins),
        RoundDiv(bets, n), RoundDiv(total, n), total > 0)
  }

  /** The statistics in one pass over the spins, updating all accumulators per spin. */
  method GenerateSessionStatistics(spins: seq<Spin>) returns (stats: SessionStatistics)
    ensures stats == Statistics(spins)
  {
    if |spins| == 0 {
      return EmptySessionStatistics();
    }
    var totalSpins := |spins|;
    var winningSpins, losingSpins, breakEvenSpins := 0, 0, 0;
    var totalPL, totalBetAmount, largestWin, largestLoss := 0, 0, 0, 0;
    for i := 0 to |spins|
      invariant winningSpins == CountKind(spins[..i], Winning)
      invariant losingSpins == CountKind(spins[..i], Losing)
      invariant breakEvenSpins == CountKind(spins[..i], BreakEven)
      invariant totalPL == TotalPL(spins[..i])
      invariant totalBetAmount == TotalBetAmount(spins[..i])
      invariant largestWin == LargestWin(spins[..i])
      invariant largestLoss == LargestLoss(spins[..i])
    {
      assert spins[..i + 1][..i] == spins[..i];
      var pl := spins[i].pl;
      var betAmount := spins[i].betAmount;
      if pl > 0 {
        winningSpins := winningSpins + 1;
        largestWin := Max(largestWin, pl);
      } else if pl < 0 {
        losingSpins := losingSpins + 1;
        largestLoss := Min(largestLoss, pl);
      } else {
        breakEvenSpins := breakEvenSpins + 1;
      }
      totalPL := totalPL + pl;
      totalBetAmount := totalBetAmount + betAmount;
    }
    assert spins[..|spins|] == spins;
    var winRate := RoundDiv(winningSpins * 10000, totalSpins);
    var averageBet := RoundDiv(totalBetAmount, totalSpins);
    var averagePLPerSpin := RoundDiv(totalPL, totalSpins);
    stats := SessionStatistics(totalSpins, winningSpins, losingSpins, breakEvenSpins, winRate,
      totalPL, totalBetAmount, largestWin, largestLoss, averageBet, averagePLPerSpin, totalPL > 0);
  }

  /**
   * The relations every statistics record satisfies: the three counts partition the spins,
   * the win rate is a percentage, largest win and loss lie on their side of zero, the rounded
   * figures are within half a unit of the exact ratios, and "profitable" means a positive total.
   */
  predicate Consistent(s: SessionStatistics) {
    && s.winningSpins + s.losingSpins + s.breakEvenSpins == s.totalSpins
    && 0 <= s.winRate <= 10000
    && s.largestWin >= 0
    && s.largestLoss <= 0
    && (s.isProfitable <==> s.totalPL > 0)
    && (s.totalSpins > 0 ==>
          && 2 * s.winRate * s.totalSpins - s.totalSpins <= 2 * s.winningSpins * 10000
          && 2 * s.winningSpins * 10000 < 2 * s.winRate * s.totalSpins + s.totalSpins
          && 2 * s.averageBet * s.totalSpins - s.totalSpins <= 2 * s.totalBetAmount
          && 2 * s.totalBetAmount <= 2 * s.averageBet * s.totalSpins + s.totalSpins
          && 2 * s.averagePLPerSpin * s.totalSpins - s.totalSpins <= 2 * s.totalPL
          && 2 * s.totalPL <= 2 * s.averagePLPerSpin * s.totalSpins + s.totalSpins)
    && (s.totalSpins == 0 ==> s == EmptySessionStatistics())
  }

  lemma StatisticsConsistent(spins: seq<Spin>)
    ensures Consistent(Statistics(spins))
  {
    if |spins| > 0 {
      var n := |spins|;
      CountsPartition(spins);
      assert CountKind(spins, Winning) <= n;
      RoundDivWithin(CountKind(spins, Winning) * 10000, n, 10000);
    }
  }

  /** The statistics total agrees with the total and with the last running total. */
  lemma StatisticsTotalAgrees(spins: seq<Spin>, entries: seq<RunningTotal>)
    requires IsRunningTotals(spins, entries)
    ensures Statistics(spins).totalPL == TotalPL(spins)
    ensures |spins| > 0 ==> Statistics(spins).totalPL == entries[|entries| - 1].runningTotal
  {
    if |spins| > 0 {
      LastRunningTotalIsTotal(spins, entries);
    }
  }

  /** Counts are the numbers of spins on each side of zero, whatever their order. */
  lemma {:induction false} CountKindPermutation(a: seq<Spin>, b: seq<Spin>, kind: PLKind)
    requires multiset(a) == multiset(b)
    ensures CountKind(a, kind) == CountKind(b, kind)
    decreases |a|
  {
    if |a| == 0 {
      assert |b| == |multiset(b)|;
    } else {
      var j := RemoveOne(a, b);
      CountKindPermutation(a[..|a| - 1], b[..j] + b[j + 1..], kind);
      CountKindWithout(b, j, kind);
    }
  }

  lemma CountKindWithout(b: seq<Spin>, j: nat, kind: PLKind)
    requires j < |b|
    ensures CountKind(b, kind) == CountKind(b[..j] + b[j + 1..], kind) + (if KindOf(b[j].pl) == kind then 1 else 0)
  {
    assert b == b[..j] + ([b[j]] + b[j + 1..]);
    CountKindAppend(b[..j], [b[j]] + b[j + 1..], kind);
    CountKindAppend([b[j]], b[j + 1..], kind);
    CountKindAppend(b[..j], b[j + 1..], kind);
    assert [b[j]][..0] == [];
  }

  lemma {:induction false} CountKindAppend(a: seq<Spin>, b: seq<Spin>, kind: PLKind)
    ensures CountKind(a + b, kind) == CountKind(a, kind) + CountKind(b, kind)
    decreases |b|
  {
    if |b| == 0 {
      assert a + b == a;
    } else {
      var b' := b[..|b| - 1];
      assert (a + b)[..|a + b| - 1] == a + b';
      CountKindAppend(a, b', kind);
    }
  }

  /** The worked example of the statistics: five spins with two wins, two losses, one even. */
  function ExampleSpins(): seq<Spin> {
    [Spin(1, 1, "1", 500, 1550), Spin(2, 1, "2", 500, -500), Spin(3, 1, "5", 300, 0),
     Spin(4, 1, "10", 1000, -1000), Spin(5, 1, "1", 275, 825)]
  }

  lemma ExamplePrefixes()
    ensures ExampleSpins()[..4][..3] == ExampleSpins()[..3]
    ensures ExampleSpins()[..3][..2] == ExampleSpins()[..2]
    ensures ExampleSpins()[..2][..1] == ExampleSpins()[..1]
    ensures ExampleSpins()[..1][..0] == []
    ensures ExampleSpins()[..|ExampleSpins()| - 1] == ExampleSpins()[..4]
  {
  }

  lemma ExampleSums()
    ensures TotalPL(ExampleSpins()) == 875
    ensures TotalBetAmount(ExampleSpins()) == 2575
  {
    var s := ExampleSpins();
    ExamplePrefixes();
    assert TotalPL(s[..2]) == 1050 && TotalBetAmount(s[..2]) == 1000;
    assert TotalPL(s[..4]) == 50 && TotalBetAmount(s[..4]) == 2300;
  }

  lemma ExampleCounts()
    ensures CountKind(ExampleSpins(), Winning) == 2
    ensures CountKind(ExampleSpins(), Losing) == 2
    ensures CountKind(ExampleSpins(), BreakEven) == 1
  {
    var s := ExampleSpins();
    ExamplePrefixes();
    assert CountKind(s[..2], Winning) == 1 && CountKind(s[..4], Winning) == 1;
    assert CountKind(s[..2], Losing) == 1 && CountKind(s[..4], Losing) == 2;
    assert CountKind(s[..2], BreakEven) == 0 && CountKind(s[..4], BreakEven) == 1;
  }

  lemma ExampleExtremes()
    ensures LargestWin(ExampleSpins()) == 1550
    ensures LargestLoss(ExampleSpins()) == -1000
  {
    var s := ExampleSpins();
    ExamplePrefixes();
    assert LargestWin(s[..2]) == 1550 && LargestWin(s[..4]) == 1550;
    assert LargestLoss(s[..2]) == -500 && LargestLoss(s[..4]) == -1000;
  }

  /** Win rate 40.00%, P/L 8.75 on bets of 25.75, averages 5.15 and 1.75, largest 15.50 and -10.00. */
  lemma StatisticsExample()
    ensures Statistics(ExampleSpins())
         == SessionStatistics(5, 2, 2, 1, 4000, 875, 2575, 1550, -1000, 515, 175, true)
  {
    ExampleCounts();
    ExampleSums();
    ExampleExtremes();
    RoundDivExact(4000, 5);
    RoundDivExact(515, 5);
    RoundDivExact(175, 5);
  }

  // ---------------------------------------------------------------------------------------
  // Readiness check

  /** A stored spin row as the database holds it: either column may be NULL. */
  datatype SpinRow = SpinRow(pl: Option<Cents>, betAmount: Option<Cents>)

  /** A session as handed to the check: whether it is persisted, its user_id and its spin rows. */
  datatype StoredSession = StoredSession(persisted: bool, userId: Option<int>, rows: seq<SpinRow>)

  predicate RowIsInvalid(row: SpinRow) {
    row.pl.None? || row.betAmount.None? || row.betAmount.value < 0
  }

  /** A user_id that PHP treats as set: present and not zero. */
  predicate HasUserId(s: StoredSession) {
    s.userId.Some? && s.userId.value != 0
  }

  function InvalidRowCount(rows: seq<SpinRow>): nat {
    if |rows| == 0 then 0
    else InvalidRowCount(rows[..|rows| - 1]) + (if RowIsInvalid(rows[|rows| - 1]) then 1 else 0)
  }

  /** No invalid rows are counted exactly when every row is valid. */
  lemma {:induction false} InvalidRowCountZero(rows: seq<SpinRow>)
    ensures InvalidRowCount(rows) == 0 <==> forall i :: 0 <= i < |rows| ==> !RowIsInvalid(rows[i])
  {
    if |rows| > 0 {
      var prefix := rows[..|rows| - 1];
      InvalidRowCountZero(prefix);
      assert forall i :: 0 <= i < |prefix| ==> prefix[i] == rows[i];
    }
  }

  /** The positions of the invalid rows. */
  function InvalidRowIndices(rows: seq<SpinRow>): set<nat> {
    set i: nat | i < |rows| && RowIsInvalid(rows[i])
  }

  /** The count is the number of invalid rows, whatever their positions. */
  lemma {:induction false} InvalidRowCountIsNumberOfInvalidRows(rows: seq<SpinRow>)
    ensures InvalidRowCount(rows) == |InvalidRowIndices(rows)|
  {
    if |rows| > 0 {
      var n := |rows| - 1;
      var prefix := rows[..n];
      InvalidRowCountIsNumberOfInvalidRows(prefix);
      var before := InvalidRowIndices(prefix);
      assert n !in before;
      if RowIsInvalid(rows[n]) {
        assert InvalidRowIndices(rows) == before + {n};
      } else {
        assert InvalidRowIndices(rows) == before;
      }
    }
  }

  datatype DataError = NotPersisted | MissingUserId | InvalidSpins(count: nat)

  function DataErrorMessage(e: DataError): string {
    match e
    case NotPersisted => "Session must be persisted to database"
    case MissingUserId => "Session must have a valid user_id"
    case InvalidSpins(n) => "Session contains " + NatToString(n) + " spins with invalid data"
  }

  /**
   * The readiness check: persisted first, then a user, then the count of rows with a missing
   * P/L, a missing bet or a negative bet.
   */
  function ValidateSessionData(s: StoredSession): (o: Outcome<DataError>)
    ensures o.Pass? <==>
      s.persisted && HasUserId(s) && forall i :: 0 <= i < |s.rows| ==> !RowIsInvalid(s.rows[i])
    ensures o == Fail(NotPersisted) <==> !s.persisted
    ensures o == Fail(MissingUserId) <==> s.persisted && !HasUserId(s)
    ensures o.Fail? && o.error.InvalidSpins? ==>
      && s.persisted && HasUserId(s) && 0 < o.error.count <= |s.rows|
      && o.error.count == |InvalidRowIndices(s.rows)|
  {
    InvalidRowCountZero(s.rows);
    InvalidRowCountBound(s.rows);
    InvalidRowCountIsNumberOfInvalidRows(s.rows);
    if !s.persisted then Fail(NotPersisted)
    else if !HasUserId(s) then Fail(MissingUserId)
    else
      var invalid := InvalidRowCount(s.rows);
      if invalid > 0 then Fail(InvalidSpins(invalid)) else Pass
  }

  lemma {:induction false} InvalidRowCountBound(rows: seq<SpinRow>)
    ensures InvalidRowCount(rows) <= |rows|
  {
    if |rows| > 0 {
      InvalidRowCountBound(rows[..|rows| - 1]);
    }
  }

  /** The rows of recorded spins: both columns are set. */
  function RowsOf(spins: seq<Spin>): (rows: seq<SpinRow>)
    ensures |rows| == |spins|
    ensures forall i :: 0 <= i < |spins| ==> rows[i] == SpinRow(Some(spins[i].pl), Some(spins[i].betAmount))
  {
    if |spins| == 0 then [] else RowsOf(spins[..|spins| - 1]) + [SpinRow(Some(spins[|spins| - 1].pl), Some(spins[|spins| - 1].betAmount))]
  }

  /** A persisted session of a real user whose bets are all non-negative passes the check. */
  lemma RecordedSessionPasses(session: Session)
    requires session.userId != 0
    requires forall i :: 0 <= i < |session.spins| ==> session.spins[i].betAmount >= 0
    ensures ValidateSessionData(StoredSession(true, Some(session.userId), RowsOf(session.spins))).Pass?
  {
  }
}
