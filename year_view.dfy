/** The year view of the calendar: one card of statistics per month of the
    displayed year and three year-total cards. The total cards show the
    calendar page's totals over the WHOLE event list, so they agree with the
    twelve month cards exactly when every event falls in the displayed year. */
module YearView {

  import opened Lists
  import opened Dates
  import opened Records
  import opened CalendarPage

  /** What `getMonthStats` returns. */
  datatype MonthStats = MonthStats(total: int, pending: int, completed: int, expectedProfit: int, realizedProfit: int)

  const NoStats := MonthStats(0, 0, 0, 0, 0)

  function AddStats(a: MonthStats, b: MonthStats): MonthStats {
    MonthStats(a.total + b.total, a.pending + b.pending, a.completed + b.completed,
               a.expectedProfit + b.expectedProfit, a.realizedProfit + b.realizedProfit)
  }

  /** The "Total de Eventos" card: the length of the whole list. */
  function TotalEvents(events: seq<CalendarEvent>): int {
    |events|
  }

  /** The statistics of an already selected list of events. */
  function StatsOf(s: seq<CalendarEvent>): MonthStats {
    MonthStats(|s|, |Filter(s, IsPending)|, |Filter(s, IsCompleted)|,
               SumOf(Filter(s, IsPending), ExpectedOf), SumOf(Filter(s, IsCompleted), ActualOrZero))
  }

  function InMonthOf(year: int, month: int): CalendarEvent -> bool {
    (e: CalendarEvent) => InMonth(e.date, year, month)
  }

  /** `monthEvents`: the events dated in the given month, each with all its
      occurrences, in their order. */
  function MonthEvents(events: seq<CalendarEvent>, year: int, month: int): (r: seq<CalendarEvent>)
    ensures forall i :: 0 <= i < |r| ==> InMonth(r[i].date, year, month) && r[i] in events
    ensures forall i :: 0 <= i < |events| && InMonth(events[i].date, year, month) ==>
      multiset(r)[events[i]] == multiset(events)[events[i]]
    ensures multiset(r) <= multiset(events)
  {
    FilterMembers(events, InMonthOf(year, month));
    FilterCountAll(events, InMonthOf(year, month));
    Filter(events, InMonthOf(year, month))
  }

  /** `getMonthStats(month)`: every event of the month is pending or completed
      and not both. */
  function GetMonthStats(events: seq<CalendarEvent>, year: int, month: int): (st: MonthStats)
    ensures st.pending + st.completed == st.total
    ensures st.total == |MonthEvents(events, year, month)| <= |events|
  {
    var monthEvents := MonthEvents(events, year, month);
    FilterLengthSplit(monthEvents, (e: CalendarEvent) => true, IsPending, IsCompleted);
    FilterKeepsAll(monthEvents, (e: CalendarEvent) => true);
    StatsOf(monthEvents)
  }

  /** Each statistic is a sum of per-event contributions. */
  function One(e: CalendarEvent): int { 1 }
  function CompletedOne(e: CalendarEvent): int { if e.completed then 1 else 0 }

  lemma StatsAsSums(s: seq<CalendarEvent>)
    ensures StatsOf(s) == SumsOf(s)
  {
    FilterKeepsAll(s, (e: CalendarEvent) => true);
    FilterLengthAsSum(s, (e: CalendarEvent) => true, One);
    FilterLengthAsSum(s, IsPending, PendingOne);
    FilterLengthAsSum(s, IsCompleted, CompletedOne);
    SumFilterWeighted(s, IsPending, ExpectedOf, PendingExpected);
    SumFilterWeighted(s, IsCompleted, ActualOrZero, CompletedActual);
  }

  /** `getMonthStats(month)` counts the month's events, its pending ones and
      its completed ones, sums the expected profit of the pending ones and the
      actual profit (missing read as 0) of the completed ones. */
  lemma MonthStatsAsSums(events: seq<CalendarEvent>, year: int, month: int)
    ensures GetMonthStats(events, year, month) == SumsOf(MonthEvents(events, year, month))
  {
    StatsAsSums(MonthEvents(events, year, month));
  }

  /** Events in other months change nothing in a month's statistics, wherever
      they stand in the list. */
  lemma {:induction false} OtherMonthsIgnored(a: seq<CalendarEvent>, b: seq<CalendarEvent>, c: seq<CalendarEvent>,
                                              year: int, month: int)
    requires forall i :: 0 <= i < |b| ==> !InMonth(b[i].date, year, month)
    ensures GetMonthStats(a + b + c, year, month) == GetMonthStats(a + c, year, month)
  {
    var p := InMonthOf(year, month);
    FilterAppend(a + b, c, p);
    FilterAppend(a, b, p);
    FilterAppend(a, c, p);
    FilterNone(b, p);
    assert Filter(a + b, p) == Filter(a, p) by {
      assert Filter(a, p) + [] == Filter(a, p);
    }
  }

  function InMonths(year: int, lo: int, hi: int): CalendarEvent -> bool {
    (e: CalendarEvent) => e.date.year == year && lo <= e.date.month < hi
  }

  /** The month cards `lo` .. `hi - 1` of a year, added up. */
  function MonthsTotal(events: seq<CalendarEvent>, year: int, lo: int, hi: int): MonthStats
    decreases hi - lo
  {
    if hi <= lo then NoStats
    else AddStats(MonthsTotal(events, year, lo, hi - 1), GetMonthStats(events, year, hi - 1))
  }

  /** Adding up the month cards `lo` .. `hi - 1` gives the statistics of the
      events dated in those months. */
  lemma {:induction false} MonthsTotalIsRange(events: seq<CalendarEvent>, year: int, lo: int, hi: int)
    ensures MonthsTotal(events, year, lo, hi) == SumsOf(Filter(events, InMonths(year, lo, hi)))
    decreases hi - lo
  {
    if hi <= lo {
      FilterNone(events, InMonths(year, lo, hi));
    } else {
      MonthsTotalIsRange(events, year, lo, hi - 1);
      var below, month := Filter(events, InMonths(year, lo, hi - 1)), Filter(events, InMonthOf(year, hi - 1));
      assert GetMonthStats(events, year, hi - 1) == StatsOf(month);
      StatsAsSums(month);
      MonthsSplit(events, year, lo, hi);
    }
  }

  /** Splitting the months `lo` .. `hi - 1` into `lo` .. `hi - 2` and `hi - 1`
      splits every statistic. */
  lemma MonthsSplit(s: seq<CalendarEvent>, year: int, lo: int, hi: int)
    requires lo < hi
    ensures SumsOf(Filter(s, InMonths(year, lo, hi)))
         == AddStats(SumsOf(Filter(s, InMonths(year, lo, hi - 1))), SumsOf(Filter(s, InMonthOf(year, hi - 1))))
  {
    MonthsSplitSum(s, year, lo, hi, One);
    MonthsSplitSum(s, year, lo, hi, PendingOne);
    MonthsSplitSum(s, year, lo, hi, CompletedOne);
    MonthsSplitSum(s, year, lo, hi, PendingExpected);
    MonthsSplitSum(s, year, lo, hi, CompletedActual);
    SumsAdd(Filter(s, InMonths(year, lo, hi)), Filter(s, InMonths(year, lo, hi - 1)),
            Filter(s, InMonthOf(year, hi - 1)));
  }

  lemma SumsAdd(x: seq<CalendarEvent>, y: seq<CalendarEvent>, z: seq<CalendarEvent>)
    requires SumOf(x, One) == SumOf(y, One) + SumOf(z, One)
    requires SumOf(x, PendingOne) == SumOf(y, PendingOne) + SumOf(z, PendingOne)
    requires SumOf(x, CompletedOne) == SumOf(y, CompletedOne) + SumOf(z, CompletedOne)
    requires SumOf(x, PendingExpected) == SumOf(y, PendingExpected) + SumOf(z, PendingExpected)
    requires SumOf(x, CompletedActual) == SumOf(y, CompletedActual) + SumOf(z, CompletedActual)
    ensures SumsOf(x) == AddStats(SumsOf(y), SumsOf(z))
  {
  }

  /** Splitting the months `lo` .. `hi - 1` into `lo` .. `hi - 2` and `hi - 1`
      splits each sum. */
  lemma MonthsSplitSum(s: seq<CalendarEvent>, year: int, lo: int, hi: int, f: CalendarEvent -> int)
    requires lo < hi
    ensures SumOf(Filter(s, InMonths(year, lo, hi)), f)
         == SumOf(Filter(s, InMonths(year, lo, hi - 1)), f) + SumOf(Filter(s, InMonthOf(year, hi - 1)), f)
  {
    SumFilterSplit(s, InMonths(year, lo, hi), InMonths(year, lo, hi - 1), InMonthOf(year, hi - 1), f);
  }

  /** The contribution sums of `StatsAsSums`. */
  function SumsOf(s: seq<CalendarEvent>): MonthStats {
    MonthStats(SumOf(s, One), SumOf(s, PendingOne), SumOf(s, CompletedOne),
               SumOf(s, PendingExpected), SumOf(s, CompletedActual))
  }

  /** When every event is dated in the displayed year, the three year-total
      cards (`events.length`, the calendar page's expected and realized totals)
      are the sums of the twelve month cards, and the pending and completed
      counts add up likewise. */
  lemma YearTotalsCoverMonths(events: seq<CalendarEvent>, year: int)
    requires forall i :: 0 <= i < |events| ==> events[i].date.year == year && 1 <= events[i].date.month <= 12
    ensures MonthsTotal(events, year, 1, 13)
         == MonthStats(TotalEvents(events), PendingCount(events), TotalEvents(events) - PendingCount(events),
                       TotalExpectedProfit(events), TotalRealizedProfit(events))
  {
    MonthsTotalIsRange(events, year, 1, 13);
    FilterKeepsAll(events, InMonths(year, 1, 13));
    StatsAsSums(events);
  }

  /** An event of another year shows on no month card of the displayed year,
      yet it is counted in all three year-total cards. */
  lemma OtherYearOnlyInTotals(events: seq<CalendarEvent>, e: CalendarEvent, year: int)
    requires e.date.year != year
    ensures forall month :: GetMonthStats(events + [e], year, month) == GetMonthStats(events, year, month)
    ensures TotalEvents(events + [e]) == TotalEvents(events) + 1
    ensures TotalExpectedProfit(events + [e]) == TotalExpectedProfit(events) + PendingExpected(e)
    ensures TotalRealizedProfit(events + [e]) == TotalRealizedProfit(events) + CompletedActual(e)
  {
    forall month ensures GetMonthStats(events + [e], year, month) == GetMonthStats(events, year, month) {
      OtherMonthsIgnored(events, [e], [], year, month);
      assert events + [e] + [] == events + [e];
      assert events + [] == events;
    }
    SumAppend(events, [e], PendingExpected);
    SumAppend(events, [e], CompletedActual);
  }
}
