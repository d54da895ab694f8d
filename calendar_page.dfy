/** The values the calendar page derives from the event list: the events of a
    day, the five next pending events, the expected and realized profit totals
    and the pending count. All are filters, a sort, a slice and sums over the
    list, with no state. */
module CalendarPage {

  import opened Lists
  import opened Dates
  import opened Records
  import Ledger

  predicate IsPending(e: CalendarEvent) { !e.completed }
  predicate IsCompleted(e: CalendarEvent) { e.completed }

  function ExpectedOf(e: CalendarEvent): int { e.expectedProfit }

  /** `e.actualProfit || 0`. */
  function ActualOrZero(e: CalendarEvent): int { e.actualProfit.GetOr(0) }

  /** `e.completed && e.actualProfit`: completed, with an actual profit that is
      present and not zero. */
  predicate HasRealizedProfit(e: CalendarEvent) {
    e.completed && e.actualProfit.Some? && e.actualProfit.value != 0
  }

  /** What an event adds to each total, whether or not it passes the filter. */
  function PendingExpected(e: CalendarEvent): int { if e.completed then 0 else e.expectedProfit }
  function CompletedActual(e: CalendarEvent): int { if e.completed then ActualOrZero(e) else 0 }
  function PendingOne(e: CalendarEvent): int { if e.completed then 0 else 1 }

  /** `totalExpectedProfit`: the expected profit of the events not completed. */
  function TotalExpectedProfit(events: seq<CalendarEvent>): (r: int)
    ensures r == SumOf(events, PendingExpected)
  {
    SumFilterWeighted(events, IsPending, ExpectedOf, PendingExpected);
    SumOf(Filter(events, IsPending), ExpectedOf)
  }

  /** `totalRealizedProfit`: the actual profit of the completed events. Leaving
      out the events whose actual profit is missing or zero changes nothing, so
      it is also the sum over every completed event with a missing profit read
      as 0. */
  function TotalRealizedProfit(events: seq<CalendarEvent>): (r: int)
    ensures r == SumOf(Filter(events, IsCompleted), ActualOrZero)
    ensures r == SumOf(events, CompletedActual)
  {
    SumFilterWeighted(events, HasRealizedProfit, ActualOrZero, CompletedActual);
    SumFilterWeighted(events, IsCompleted, ActualOrZero, CompletedActual);
    SumOf(Filter(events, HasRealizedProfit), ActualOrZero)
  }

  /** The "Eventos Pendentes" card: how many events are not completed; with the
      completed ones they make up the whole list. */
  function PendingCount(events: seq<CalendarEvent>): (r: int)
    ensures r == SumOf(events, PendingOne)
    ensures r + |Filter(events, IsCompleted)| == |events|
  {
    FilterLengthAsSum(events, IsPending, PendingOne);
    FilterLengthSplit(events, (e: CalendarEvent) => true, IsPending, IsCompleted);
    FilterKeepsAll(events, (e: CalendarEvent) => true);
    |Filter(events, IsPending)|
  }

  function OnDay(day: Instant): CalendarEvent -> bool {
    (e: CalendarEvent) => SameDay(e.date, day)
  }

  /** `getEventsForDay(day)`: the events dated on that calendar day, each with
      all its occurrences; `EventsForDayKeepsOrder` says they keep their order. */
  function EventsForDay(events: seq<CalendarEvent>, day: Instant): (r: seq<CalendarEvent>)
    ensures forall i :: 0 <= i < |r| ==> SameDay(r[i].date, day) && r[i] in events
    ensures forall i :: 0 <= i < |events| && SameDay(events[i].date, day) ==>
      multiset(r)[events[i]] == multiset(events)[events[i]]
    ensures multiset(r) <= multiset(events)
  {
    FilterMembers(events, OnDay(day));
    FilterCountAll(events, OnDay(day));
    Filter(events, OnDay(day))
  }

  lemma EventsForDayKeepsOrder(a: seq<CalendarEvent>, b: seq<CalendarEvent>, day: Instant)
    ensures EventsForDay(a + b, day) == EventsForDay(a, day) + EventsForDay(b, day)
    ensures EventsForDay([], day) == []
  {
    FilterAppend(a, b, OnDay(day));
  }

  /** Ascending by date, as `(a, b) => a.date.getTime() - b.date.getTime()` orders them. */
  ghost predicate SortedByDate(s: seq<CalendarEvent>) {
    forall i, j :: 0 <= i < j < |s| ==> NotAfter(s[i].date, s[j].date)
  }

  /** Inserts `x` before the first element not dated before it, which keeps a
      stable order. */
  function InsertByDate(x: CalendarEvent, s: seq<CalendarEvent>): (r: seq<CalendarEvent>)
    requires SortedByDate(s)
    ensures SortedByDate(r)
    ensures multiset(r) == multiset(s) + multiset{x}
    decreases |s|
  {
    if s == [] then [x]
    else if NotAfter(x.date, s[0].date) then
      InsertedFirst(x, s);
      [x] + s
    else
      var t := InsertByDate(x, s[1..]);
      InsertedAfterHead(x, s, t);
      [s[0]] + t
  }

  lemma InsertedFirst(x: CalendarEvent, s: seq<CalendarEvent>)
    requires SortedByDate(s) && s != [] && NotAfter(x.date, s[0].date)
    ensures SortedByDate([x] + s)
  {
    forall i, j | 0 <= i < j < |[x] + s| ensures NotAfter(([x] + s)[i].date, ([x] + s)[j].date) {
      if i == 0 {
        assert ([x] + s)[j] == s[j - 1];
        NotAfterTransitive(x.date, s[0].date, s[j - 1].date);
      }
    }
  }

  lemma InsertedAfterHead(x: CalendarEvent, s: seq<CalendarEvent>, t: seq<CalendarEvent>)
    requires SortedByDate(s) && s != [] && !NotAfter(x.date, s[0].date)
    requires SortedByDate(t) && multiset(t) == multiset(s[1..]) + multiset{x}
    ensures SortedByDate([s[0]] + t)
    ensures multiset([s[0]] + t) == multiset(s) + multiset{x}
  {
    assert s == [s[0]] + s[1..];
    forall j | 0 <= j < |t| ensures NotAfter(s[0].date, t[j].date) {
      assert t[j] in multiset(t);
      if t[j] != x {
        assert t[j] in multiset(s[1..]);
        var m :| 0 <= m < |s[1..]| && s[1..][m] == t[j];
        assert s[m + 1] == t[j];
      }
    }
    forall i, j | 0 <= i < j < |[s[0]] + t| ensures NotAfter(([s[0]] + t)[i].date, ([s[0]] + t)[j].date) {
      if i == 0 {
        assert ([s[0]] + t)[j] == t[j - 1];
      } else {
        assert ([s[0]] + t)[i] == t[i - 1] && ([s[0]] + t)[j] == t[j - 1];
      }
    }
  }

  /** The events in ascending date order, and nothing else. */
  function SortByDate(s: seq<CalendarEvent>): (r: seq<CalendarEvent>)
    ensures SortedByDate(r)
    ensures multiset(r) == multiset(s)
    decreases |s|
  {
    if s == [] then []
    else
      assert s == [s[0]] + s[1..];
      InsertByDate(s[0], SortByDate(s[1..]))
  }

  function IsUpcoming(now: Instant): CalendarEvent -> bool {
    (e: CalendarEvent) => !e.completed && NotAfter(now, e.date)
  }

  const UpcomingLimit := 5

  /** `upcomingEvents`: of the events not completed and dated at or after `now`,
      the five earliest, in ascending date order. */
  function UpcomingEvents(events: seq<CalendarEvent>, now: Instant): (r: seq<CalendarEvent>)
    ensures |r| <= UpcomingLimit
    ensures |r| == if |Filter(events, IsUpcoming(now))| < UpcomingLimit
                   then |Filter(events, IsUpcoming(now))| else UpcomingLimit
    ensures SortedByDate(r)
    ensures forall i :: 0 <= i < |r| ==> r[i] in events && !r[i].completed && NotAfter(now, r[i].date)
    ensures multiset(r) <= multiset(Filter(events, IsUpcoming(now)))
    ensures forall e, i ::
              e in multiset(Filter(events, IsUpcoming(now))) - multiset(r) && 0 <= i < |r| ==>
                NotAfter(r[i].date, e.date)
  {
    var candidates := Filter(events, IsUpcoming(now));
    var sorted := SortByDate(candidates);
    SortKeepsLength(candidates);
    var k := if |sorted| < UpcomingLimit then |sorted| else UpcomingLimit;
    var r := sorted[..k];
    EarliestOfCandidates(candidates, sorted, k);
    UpcomingCandidates(events, now, sorted, k);
    r
  }

  lemma SortKeepsLength(s: seq<CalendarEvent>)
    ensures |SortByDate(s)| == |s|
  {
    assert |SortByDate(s)| == |multiset(SortByDate(s))| == |multiset(s)|;
  }

  /** Every element of a reordering of the upcoming candidates is an upcoming
      event of the list. */
  lemma UpcomingCandidates(events: seq<CalendarEvent>, now: Instant, sorted: seq<CalendarEvent>, k: nat)
    requires multiset(sorted) == multiset(Filter(events, IsUpcoming(now))) && k <= |sorted|
    ensures forall i :: 0 <= i < |sorted[..k]| ==>
      sorted[..k][i] in events && !sorted[..k][i].completed && NotAfter(now, sorted[..k][i].date)
  {
    var candidates := Filter(events, IsUpcoming(now));
    FilterMembers(events, IsUpcoming(now));
    forall i | 0 <= i < |sorted[..k]|
      ensures sorted[..k][i] in events && !sorted[..k][i].completed && NotAfter(now, sorted[..k][i].date)
    {
      assert sorted[i] in multiset(candidates);
      var j :| 0 <= j < |candidates| && candidates[j] == sorted[i];
      assert candidates[j] in events && IsUpcoming(now)(candidates[j]);
    }
  }

  /** A prefix of a date-sorted reordering of `candidates` is sorted, holds
      only candidates, and leaves out none dated before an element it keeps. */
  lemma EarliestOfCandidates(candidates: seq<CalendarEvent>, sorted: seq<CalendarEvent>, k: nat)
    requires SortedByDate(sorted) && multiset(sorted) == multiset(candidates) && k <= |sorted|
    ensures SortedByDate(sorted[..k])
    ensures multiset(sorted[..k]) <= multiset(candidates)
    ensures forall e, i :: e in multiset(candidates) - multiset(sorted[..k]) && 0 <= i < |sorted[..k]| ==>
      NotAfter(sorted[..k][i].date, e.date)
  {
    PrefixIsEarliest(sorted, k);
  }

  /** A prefix of a date-sorted list is a sub-multiset of it, and every element
      left out is dated no earlier than any element kept. */
  lemma PrefixIsEarliest(sorted: seq<CalendarEvent>, k: nat)
    requires SortedByDate(sorted) && k <= |sorted|
    ensures SortedByDate(sorted[..k])
    ensures multiset(sorted[..k]) <= multiset(sorted)
    ensures forall i :: 0 <= i < k ==> sorted[i] in multiset(sorted)
    ensures forall e, i :: e in multiset(sorted) - multiset(sorted[..k]) && 0 <= i < k ==>
      NotAfter(sorted[i].date, e.date)
  {
    var r := sorted[..k];
    assert sorted == r + sorted[k..];
    assert multiset(sorted) == multiset(r) + multiset(sorted[k..]);
    forall e, i | e in multiset(sorted) - multiset(r) && 0 <= i < k ensures NotAfter(sorted[i].date, e.date) {
      assert e in multiset(sorted[k..]);
      var j :| 0 <= j < |sorted[k..]| && sorted[k..][j] == e;
      assert sorted[k + j] == e;
    }
  }

  /** Completing a pending event whose id no other event shares moves its
      expected profit out of the expected total, adds the profit it was
      completed with to the realized total, and leaves one pending event less. */
  lemma CompletionMovesProfit(events: seq<CalendarEvent>, k: nat, actualProfit: int)
    requires k < |events| && !events[k].completed
    requires forall i :: 0 <= i < |events| && i != k ==> events[i].id != events[k].id
    ensures TotalExpectedProfit(Ledger.MarkCompleted(events, events[k].id, actualProfit))
            == TotalExpectedProfit(events) - events[k].expectedProfit
    ensures TotalRealizedProfit(Ledger.MarkCompleted(events, events[k].id, actualProfit))
            == TotalRealizedProfit(events) + actualProfit
    ensures PendingCount(Ledger.MarkCompleted(events, events[k].id, actualProfit)) == PendingCount(events) - 1
  {
    var after := Ledger.MarkCompleted(events, events[k].id, actualProfit);
    SumChangeAt(events, after, k, PendingExpected);
    SumChangeAt(events, after, k, CompletedActual);
    SumChangeAt(events, after, k, PendingOne);
  }
}
