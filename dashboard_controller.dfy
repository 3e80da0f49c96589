/** The five handlers of src/controllers/DashboardController.js. The pipelines are spec
    functions over the sales collection; what the JavaScript does with their results
    (the day and month lists, the merge, the seller buckets) is modelled as written. */
module DashboardController {
  import opened Common
  import opened SaleModel
  import opened Calendar
  import opened Grouping
  import opened Sorting

  /** The calendar views of instants the handlers rely on: the São Paulo calendar day of
      an instant as a day number (`format(..., "dd/MM/yyyy")` and `$dateToString` with the
      timezone name, one number per formatted string), the month `$year`/`$month` give an
      instant (no timezone, so UTC), the day of the month `getDate` gives, the instant
      `getEndOfToday()` returns for a given local date, and the first instant of a local
      date. */
  datatype Clock = Clock(dayOf: int -> int, monthOf: int -> YearMonth, dateOf: int -> int,
                         endOfDay: LocalDate -> int, startOfDay: LocalDate -> int)

  /** `$match: { date: { $gte: initialDate, $lte: finalDate }, canceledAt: null }`. */
  predicate Active(d: SaleDoc, initialDate: int, finalDate: int)
  {
    d.canceledAt.None? && initialDate <= d.sale.date <= finalDate
  }

  function Matched(db: seq<SaleDoc>, initialDate: int, finalDate: int): (r: seq<SaleDoc>)
    ensures forall d :: d in r <==> d in db && Active(d, initialDate, finalDate)
  {
    Where(db, (d: SaleDoc) => Active(d, initialDate, finalDate))
  }

  // ---------------------------------------------------------------------------
  // getSalesCurrentMonth

  /** One day of the chart: its `_id`, the number of sales and their amount. */
  datatype DaySlot = DaySlot(id: int, totalSales: int, totalAmount: int)

  function DayKey(clock: Clock): SaleDoc -> int
  {
    (d: SaleDoc) => clock.dayOf(d.sale.date)
  }

  /** `allDates`, lines 14-24: a zero entry per day from the first to the last. */
  method DayList(firstDay: int, lastDay: int) returns (allDates: seq<DaySlot>)
    ensures |allDates| == if lastDay < firstDay then 0 else lastDay - firstDay + 1
    ensures forall i :: 0 <= i < |allDates| ==> allDates[i] == DaySlot(firstDay + i, 0, 0)
  {
    allDates := [];
    var current := firstDay;
    while current <= lastDay
      invariant firstDay <= current
      invariant lastDay < firstDay ==> current == firstDay
      invariant firstDay <= lastDay ==> current <= lastDay + 1
      invariant |allDates| == current - firstDay
      invariant forall i :: 0 <= i < |allDates| ==> allDates[i] == DaySlot(firstDay + i, 0, 0)
      decreases lastDay - current
    {
      allDates := allDates + [DaySlot(current, 0, 0)];
      current := current + 1;
    }
  }

  /** The `$group` by formatted day, lines 48-52 (its `$sort` on the string `_id` is
      left out: the merge below looks groups up by id). */
  function SalesByDay(docs: seq<SaleDoc>, clock: Clock): (r: seq<DaySlot>)
    ensures forall g :: g in r ==>
              g == DaySlot(g.id, CountWith(docs, DayKey(clock), g.id), AmountWith(docs, DayKey(clock), g.id))
    ensures forall day :: (exists g :: g in r && g.id == day) <==> HasKey(docs, DayKey(clock), day)
    ensures forall i, j :: 0 <= i < j < |r| ==> r[i].id != r[j].id
  {
    var days := GroupKeys(docs, DayKey(clock));
    var r := seq(|days|, i requires 0 <= i < |days| =>
                 DaySlot(days[i], CountWith(docs, DayKey(clock), days[i]), AmountWith(docs, DayKey(clock), days[i])));
    assert forall day :: day in days ==> exists g :: g in r && g.id == day by {
      forall day | day in days ensures exists g :: g in r && g.id == day {
        var i :| 0 <= i < |days| && days[i] == day;
        assert r[i] in r;
      }
    }
    r
  }

  /** The `_id` of a day group, the key `find` compares. */
  function DayId(): DaySlot -> int
  {
    (g: DaySlot) => g.id
  }

  /** `mergedResults`, lines 64-67. */
  function Merge(allDates: seq<DaySlot>, groups: seq<DaySlot>): (r: seq<DaySlot>)
    ensures |r| == |allDates|
    ensures forall i :: 0 <= i < |r| ==> r[i].id == allDates[i].id
    ensures forall i :: 0 <= i < |r| ==>
              if exists g :: g in groups && g.id == allDates[i].id then r[i] in groups else r[i] == allDates[i]
  {
    seq(|allDates|, i requires 0 <= i < |allDates| =>
        match FindById(groups, DayId(), allDates[i].id)
        case Some(g) => g
        case None => allDates[i])
  }

  /** The chart the handler should draw: per day from `firstDay`, how many counted sales
      fall on it and their amount. */
  function DaySlots(docs: seq<SaleDoc>, clock: Clock, firstDay: int, n: nat): (r: seq<DaySlot>)
    ensures |r| == n
    ensures forall i :: 0 <= i < n ==>
              r[i] == DaySlot(firstDay + i, CountWith(docs, DayKey(clock), firstDay + i),
                              AmountWith(docs, DayKey(clock), firstDay + i))
  {
    if n == 0 then []
    else DaySlots(docs, clock, firstDay, n - 1) +
         [DaySlot(firstDay + n - 1, CountWith(docs, DayKey(clock), firstDay + n - 1),
                  AmountWith(docs, DayKey(clock), firstDay + n - 1))]
  }

  /** `getSalesCurrentMonth`: one slot per day of the month so far, in ascending order,
      each the day's count and amount of counted sales (zero when it has none). */
  method GetSalesCurrentMonth(db: seq<SaleDoc>, clock: Clock, initialDate: int, finalDate: int)
    returns (mergedResults: seq<DaySlot>)
    ensures var firstDay, lastDay := clock.dayOf(initialDate), clock.dayOf(finalDate);
            mergedResults == DaySlots(Matched(db, initialDate, finalDate), clock, firstDay,
                                      if lastDay < firstDay then 0 else lastDay - firstDay + 1)
  {
    var firstDay, lastDay := clock.dayOf(initialDate), clock.dayOf(finalDate);
    var allDates := DayList(firstDay, lastDay);
    var docs := Matched(db, initialDate, finalDate);
    var salesByDay := SalesByDay(docs, clock);
    mergedResults := Merge(allDates, salesByDay);
    MergeIsDaySlots(docs, clock, firstDay, allDates);
  }

  /** Merging the zero entries with the groups gives each day its count and amount. */
  lemma MergeIsDaySlots(docs: seq<SaleDoc>, clock: Clock, firstDay: int, allDates: seq<DaySlot>)
    requires forall i :: 0 <= i < |allDates| ==> allDates[i] == DaySlot(firstDay + i, 0, 0)
    ensures Merge(allDates, SalesByDay(docs, clock)) == DaySlots(docs, clock, firstDay, |allDates|)
  {
    var groups := SalesByDay(docs, clock);
    var r := Merge(allDates, groups);
    forall i | 0 <= i < |allDates|
      ensures r[i] == DaySlot(firstDay + i, CountWith(docs, DayKey(clock), firstDay + i),
                              AmountWith(docs, DayKey(clock), firstDay + i))
    {
      var day := firstDay + i;
      assert allDates[i].id == day;
      if HasKey(docs, DayKey(clock), day) {
        assert r[i] in groups && r[i].id == day;
      } else {
        AbsentKey(docs, DayKey(clock), day);
        assert r[i] == allDates[i];
      }
    }
  }

  function SumAmounts(slots: seq<DaySlot>): int
  {
    if slots == [] then 0 else SumAmounts(slots[..|slots| - 1]) + slots[|slots| - 1].totalAmount
  }

  function SumCounts(slots: seq<DaySlot>): int
  {
    if slots == [] then 0 else SumCounts(slots[..|slots| - 1]) + slots[|slots| - 1].totalSales
  }

  /** Adding one document to the collection adds its total (and one sale) to the chart
      if its day is in the chart's range, and nothing otherwise. */
  lemma {:induction false} DaySlotsStep(docs: seq<SaleDoc>, x: SaleDoc, clock: Clock, firstDay: int, n: nat)
    ensures var inRange := firstDay <= clock.dayOf(x.sale.date) < firstDay + n;
            && SumAmounts(DaySlots(docs + [x], clock, firstDay, n)) ==
               SumAmounts(DaySlots(docs, clock, firstDay, n)) + (if inRange then x.sale.total else 0)
            && SumCounts(DaySlots(docs + [x], clock, firstDay, n)) ==
               SumCounts(DaySlots(docs, clock, firstDay, n)) + (if inRange then 1 else 0)
  {
    if n > 0 {
      DaySlotsStep(docs, x, clock, firstDay, n - 1);
      var a, b := DaySlots(docs + [x], clock, firstDay, n), DaySlots(docs, clock, firstDay, n);
      assert a[..n - 1] == DaySlots(docs + [x], clock, firstDay, n - 1);
      assert b[..n - 1] == DaySlots(docs, clock, firstDay, n - 1);
      assert (docs + [x])[..|docs|] == docs;
    }
  }

  /** Nothing is lost or counted twice by the day chart: when every counted sale falls on
      a day of the chart, the slots add up to the number of sales and their total. */
  lemma {:induction false} DayChartConserves(docs: seq<SaleDoc>, clock: Clock, firstDay: int, n: nat)
    requires forall i :: 0 <= i < |docs| ==> firstDay <= clock.dayOf(docs[i].sale.date) < firstDay + n
    ensures SumAmounts(DaySlots(docs, clock, firstDay, n)) == SumTotal(docs)
    ensures SumCounts(DaySlots(docs, clock, firstDay, n)) == |docs|
  {
    if docs == [] {
      ZeroChart(clock, firstDay, n);
    } else {
      var init := docs[..|docs| - 1];
      DayChartConserves(init, clock, firstDay, n);
      DaySlotsStep(init, docs[|docs| - 1], clock, firstDay, n);
      assert init + [docs[|docs| - 1]] == docs;
    }
  }

  lemma {:induction false} ZeroChart(clock: Clock, firstDay: int, n: nat)
    ensures SumAmounts(DaySlots([], clock, firstDay, n)) == 0 && SumCounts(DaySlots([], clock, firstDay, n)) == 0
  {
    if n > 0 {
      ZeroChart(clock, firstDay, n - 1);
      assert DaySlots([], clock, firstDay, n)[..n - 1] == DaySlots([], clock, firstDay, n - 1);
    }
  }

  // ---------------------------------------------------------------------------
  // getTotalSalesCurrentMonth

  datatype MonthSummary = MonthSummary(totalSales: int, salesQuantity: int, salesAverage: real, salesAveragePerDay: real)

  /** `n > 0 ? sum / n : 0`. */
  function Average(sum: int, n: int): (r: real)
    ensures n > 0 ==> r * (n as real) == sum as real
    ensures n <= 0 ==> r == 0.0
  {
    if n > 0 then sum as real / n as real else 0.0
  }

  /** Lines 82-124: sum and count of the counted sales, the average per sale and the
      average per elapsed day, each guarded against a zero divisor; all zeros when no
      sale is counted. */
  function TotalSalesCurrentMonth(db: seq<SaleDoc>, clock: Clock, initialDate: int, finalDate: int): (r: MonthSummary)
    ensures var m := Matched(db, initialDate, finalDate);
            && r.totalSales == SumTotal(m) && r.salesQuantity == |m|
            && (|m| == 0 ==> r == MonthSummary(0, 0, 0.0, 0.0))
            && (|m| > 0 ==> r.salesAverage == Average(r.totalSales, r.salesQuantity))
    ensures Matched(db, initialDate, finalDate) != [] ==>
              r.salesAveragePerDay == Average(r.totalSales, clock.dateOf(finalDate) - clock.dateOf(initialDate) + 1)
  {
    var m := Matched(db, initialDate, finalDate);
    if |m| > 0 then
      var totalSales := SumTotal(m);
      var salesQuantity := |m|;
      var daysInMonth := clock.dateOf(finalDate) - clock.dateOf(initialDate) + 1;
      MonthSummary(totalSales, salesQuantity, Average(totalSales, salesQuantity), Average(totalSales, daysInMonth))
    else
      MonthSummary(0, 0, 0.0, 0.0)
  }

  /** The day chart and the month summary agree: with a day function that never goes
      back in time, the chart's slots add up to the summary's total and sale count. */
  lemma ChartMatchesSummary(db: seq<SaleDoc>, clock: Clock, initialDate: int, finalDate: int)
    requires forall t, u :: t <= u ==> clock.dayOf(t) <= clock.dayOf(u)
    ensures var firstDay, lastDay := clock.dayOf(initialDate), clock.dayOf(finalDate);
            var chart := DaySlots(Matched(db, initialDate, finalDate), clock, firstDay,
                                  if lastDay < firstDay then 0 else lastDay - firstDay + 1);
            var summary := TotalSalesCurrentMonth(db, clock, initialDate, finalDate);
            SumAmounts(chart) == summary.totalSales && SumCounts(chart) == summary.salesQuantity
  {
    var m := Matched(db, initialDate, finalDate);
    var firstDay, lastDay := clock.dayOf(initialDate), clock.dayOf(finalDate);
    var n := if lastDay < firstDay then 0 else lastDay - firstDay + 1;
    forall i | 0 <= i < |m| ensures firstDay <= clock.dayOf(m[i].sale.date) < firstDay + n {
      assert m[i] in m;
      assert clock.dayOf(initialDate) <= clock.dayOf(m[i].sale.date) <= clock.dayOf(finalDate);
    }
    DayChartConserves(m, clock, firstDay, n);
  }

  // ---------------------------------------------------------------------------
  // getLastSales

  const LastSalesLimit: nat := 10

  function DateKey(): SaleDoc -> int
  {
    (d: SaleDoc) => d.sale.date
  }

  /** `$sort: { date: -1 }` then `$limit: 10`: the ten most recent documents (all of
      them when there are fewer), newest first; none left out is more recent than one
      kept. */
  function Newest(docs: seq<SaleDoc>): (r: seq<SaleDoc>)
    ensures |r| == if |docs| < LastSalesLimit then |docs| else LastSalesLimit
    ensures SortedDesc(r, DateKey())
    ensures multiset(r) <= multiset(docs)
    ensures forall x, y :: x in multiset(docs) - multiset(r) && y in r ==> x.sale.date <= y.sale.date
  {
    var sorted := SortDesc(docs, DateKey());
    var k := if |sorted| < LastSalesLimit then |sorted| else LastSalesLimit;
    TakeSorted(sorted, k, DateKey());
    assert multiset(docs) - multiset(sorted[..k]) == multiset(sorted[k..]);
    sorted[..k]
  }

  /** Lines 137-177; the two `$lookup`/`$unwind` pairs drop a sale whose customer or
      user document is missing. The result: at most ten counted sales with both
      documents, most recent first. */
  function LastSales(db: seq<SaleDoc>, initialDate: int, finalDate: int, customers: set<Id>, users: set<Id>)
    : (r: seq<SaleDoc>)
    ensures |r| <= LastSalesLimit
    ensures forall d :: d in r ==>
              d in db && Active(d, initialDate, finalDate) && d.sale.customer in customers && d.sale.user in users
    ensures SortedDesc(r, DateKey())
  {
    var top := Newest(Matched(db, initialDate, finalDate));
    var p := (d: SaleDoc) => d.sale.customer in customers && d.sale.user in users;
    WhereSorted(top, p);
    assert forall d :: d in Where(top, p) ==> d in Matched(db, initialDate, finalDate) by {
      forall d | d in Where(top, p) ensures d in Matched(db, initialDate, finalDate) {
        assert d in multiset(top);
      }
    }
    Where(top, p)
  }

  lemma {:induction false} WhereSorted(s: seq<SaleDoc>, p: SaleDoc -> bool)
    requires SortedDesc(s, DateKey())
    ensures SortedDesc(Where(s, p), DateKey())
  {
    if s != [] {
      var init, last := s[..|s| - 1], s[|s| - 1];
      assert SortedDesc(init, DateKey()) by {
        forall i, j | 0 <= i < j < |init| ensures init[i].sale.date >= init[j].sale.date {
          assert init[i] == s[i] && init[j] == s[j];
        }
      }
      WhereSorted(init, p);
      var w := Where(init, p);
      if p(last) {
        forall e | e in w ensures e.sale.date >= last.sale.date {
          var k :| 0 <= k < |init| && init[k] == e;
          assert s[k] == e;
        }
        var r := w + [last];
        forall i, j | 0 <= i < j < |r| ensures r[i].sale.date >= r[j].sale.date {
          if j == |w| {
            assert r[i] == w[i] && w[i] in w;
          } else {
            assert r[i] == w[i] && r[j] == w[j];
          }
        }
      }
    }
  }

  lemma {:induction false} WhereAll(s: seq<SaleDoc>, p: SaleDoc -> bool)
    requires forall i :: 0 <= i < |s| ==> p(s[i])
    ensures Where(s, p) == s
  {
    if s != [] {
      var init := s[..|s| - 1];
      assert forall i :: 0 <= i < |init| ==> init[i] == s[i];
      WhereAll(init, p);
      assert init + [s[|s| - 1]] == s;
    }
  }

  /** When every counted sale has its customer and user, the last sales are exactly the
      newest ten of the counted sales. */
  lemma LastSalesNewestFirst(db: seq<SaleDoc>, initialDate: int, finalDate: int, customers: set<Id>, users: set<Id>)
    ensures var m := Matched(db, initialDate, finalDate);
            var r := LastSales(db, initialDate, finalDate, customers, users);
            (forall d :: d in m ==> d.sale.customer in customers && d.sale.user in users) ==>
              && |r| == (if |m| < LastSalesLimit then |m| else LastSalesLimit)
              && multiset(r) <= multiset(m)
              && forall x, y :: x in multiset(m) - multiset(r) && y in r ==> x.sale.date <= y.sale.date
  {
    var m := Matched(db, initialDate, finalDate);
    var top := Newest(m);
    var p := (d: SaleDoc) => d.sale.customer in customers && d.sale.user in users;
    if forall d :: d in m ==> p(d) {
      forall i | 0 <= i < |top| ensures p(top[i]) {
        assert top[i] in multiset(top);
      }
      WhereAll(top, p);
    }
  }

  // ---------------------------------------------------------------------------
  // getSalesByMonth

  /** An element of `filledMonths`. */
  datatype MonthRow = MonthRow(id: string, name: string, total: int)

  /** The months the loop of lines 198-208 visits: it starts at `current`, advances with
      `setMonth(getMonth() + 1)` and stops after `final`. */
  function MonthsFrom(current: LocalDate, final: LocalDate): (r: seq<YearMonth>)
    requires ValidDate(current)
    ensures forall i :: 0 <= i < |r| ==> MonthIndex(MonthOf(current)) <= MonthIndex(r[i]) <= MonthIndex(MonthOf(final))
    decreases MonthIndex(MonthOf(final)) + 2 - MonthIndex(MonthOf(current))
  {
    if !NotAfter(current, final) then []
    else
      NotAfterMonths(current, final);
      [MonthOf(current)] + MonthsFrom(AddMonths(current, 1), final)
  }

  /** The loop of lines 198-208 as written. */
  method MonthListAsWritten(initialDate: LocalDate, finalDate: LocalDate) returns (monthsArray: seq<YearMonth>)
    requires ValidDate(initialDate)
    ensures monthsArray == MonthsFrom(initialDate, finalDate)
  {
    monthsArray := [];
    var currentDate := initialDate;
    while NotAfter(currentDate, finalDate)
      invariant ValidDate(currentDate)
      invariant monthsArray + MonthsFrom(currentDate, finalDate) == MonthsFrom(initialDate, finalDate)
      decreases MonthIndex(MonthOf(finalDate)) + 2 - MonthIndex(MonthOf(currentDate))
    {
      NotAfterMonths(currentDate, finalDate);
      MonthsFromPush(monthsArray, currentDate, finalDate, MonthsFrom(initialDate, finalDate));
      monthsArray := monthsArray + [MonthOf(currentDate)];
      currentDate := AddMonths(currentDate, 1);
    }
  }

  lemma MonthsFromPush(prefix: seq<YearMonth>, d: LocalDate, final: LocalDate, whole: seq<YearMonth>)
    requires ValidDate(d) && NotAfter(d, final) && prefix + MonthsFrom(d, final) == whole
    ensures (prefix + [MonthOf(d)]) + MonthsFrom(AddMonths(d, 1), final) == whole
  {
    MonthsFromStep(d, final, AddMonths(d, 1));
  }

  /** The window start as written at lines 191-192 and 323-324: `getEndOfToday()` moved
      back eleven months with `setMonth`. */
  function WindowStart(today: LocalDate): (r: LocalDate)
    requires ValidDate(today) && today.year >= 1
    ensures ValidDate(r)
  {
    AddMonths(today, -11)
  }

  lemma {:induction false} MonthsFromStep(d: LocalDate, final: LocalDate, next: LocalDate)
    requires ValidDate(d) && NotAfter(d, final) && AddMonths(d, 1) == next
    ensures MonthsFrom(d, final) == [MonthOf(d)] + MonthsFrom(next, final)
  {
  }

  /** The visits of the month loop from 30 April of year `y` to 30 March of the next,
      one step at a time: each 30th moves to the next 30th, except 30 January, whose next
      month has no 30th and which lands on 2 March. */
  function SkipDates(y: nat): seq<LocalDate>
  {
    var march := if LeapYear(y + 1) then 1 else 2;
    [LocalDate(y, 4, 30), LocalDate(y, 5, 30), LocalDate(y, 6, 30), LocalDate(y, 7, 30), LocalDate(y, 8, 30),
     LocalDate(y, 9, 30), LocalDate(y, 10, 30), LocalDate(y, 11, 30), LocalDate(y, 12, 30),
     LocalDate(y + 1, 1, 30), LocalDate(y + 1, 3, march), LocalDate(y + 1, 4, march)]
  }

  lemma SkipSteps(y: nat, k: nat)
    requires k < 11
    ensures var ds := SkipDates(y);
            MonthsFrom(ds[k], LocalDate(y + 1, 3, 30)) == [MonthOf(ds[k])] + MonthsFrom(ds[k + 1], LocalDate(y + 1, 3, 30))
  {
    var ds := SkipDates(y);
    assert AddMonths(ds[k], 1) == ds[k + 1];
    MonthsFromStep(ds[k], LocalDate(y + 1, 3, 30), ds[k + 1]);
  }

  lemma {:induction false} SkipFrom(y: nat, k: nat)
    requires k <= 11
    ensures var ms := MonthsFrom(SkipDates(y)[k], LocalDate(y + 1, 3, 30));
            |ms| == 11 - k && YearMonth(y + 1, 2) !in ms
    decreases 11 - k
  {
    var f := LocalDate(y + 1, 3, 30);
    if k == 11 {
      assert MonthsFrom(SkipDates(y)[11], f) == [];
    } else {
      SkipFrom(y, k + 1);
      SkipSteps(y, k);
      assert SkipDates(y)[k].month != 2;
    }
  }

  /** Started on a 30th, the loop of lines 198-208 visits eleven months from April to
      March and leaves February out: the 30th survives every month but that one. */
  lemma MonthsFromSkipsFebruary(y: nat)
    ensures var ms := MonthsFrom(LocalDate(y, 4, 30), LocalDate(y + 1, 3, 30));
            |ms| == 11 && YearMonth(y + 1, 2) !in ms
  {
    SkipFrom(y, 0);
  }

  /** On 30 March of any year the month chart should cover April of the year before to
      March, but the loop as written leaves February out: its 11 entries miss a month
      whose sales are inside the window. */
  lemma MonthChartMissesFebruary(y: nat)
    requires y >= 1
    ensures var today := LocalDate(y, 3, 30);
            && WindowStart(today) == LocalDate(y - 1, 4, 30)
            && |MonthsFrom(WindowStart(today), today)| == 11
            && YearMonth(y, 2) !in MonthsFrom(WindowStart(today), today)
            && MonthIndex(MonthOf(WindowStart(today))) < MonthIndex(YearMonth(y, 2)) < MonthIndex(MonthOf(today))
  {
    MonthsFromSkipsFebruary(y - 1);
  }

  /** The number of months from `first` to `last`, both included. */
  function MonthSpan(first: YearMonth, last: YearMonth): nat
  {
    if MonthIndex(last) < MonthIndex(first) then 0 else MonthIndex(last) - MonthIndex(first) + 1
  }

  /** `monthsArray` as evidently intended: every month from the first to the last. */
  method MonthList(first: YearMonth, last: YearMonth) returns (monthsArray: seq<YearMonth>)
    ensures monthsArray == MonthsStarting(first, MonthSpan(first, last))
    ensures |monthsArray| > 0 ==> monthsArray[0] == first && monthsArray[|monthsArray| - 1] == last
  {
    var n := MonthSpan(first, last);
    monthsArray := [];
    var current := first;
    ghost var remaining := n;
    while MonthIndex(current) <= MonthIndex(last)
      invariant remaining == n - |monthsArray| >= 0
      invariant MonthIndex(current) == MonthIndex(first) + |monthsArray|
      invariant monthsArray + MonthsStarting(current, remaining) == MonthsStarting(first, n)
      decreases remaining
    {
      MonthListStep(monthsArray, current, remaining, MonthsStarting(first, n));
      monthsArray := monthsArray + [current];
      current := NextMonth(current);
      remaining := remaining - 1;
    }
    assert MonthsStarting(current, 0) == [];
    assert monthsArray + [] == monthsArray;
    if n > 0 {
      MonthsStartingEnds(first, last);
    }
  }

  lemma MonthsStartingEnds(first: YearMonth, last: YearMonth)
    requires MonthSpan(first, last) > 0
    ensures var r := MonthsStarting(first, MonthSpan(first, last));
            r[0] == first && r[|r| - 1] == last
  {
    var r := MonthsStarting(first, MonthSpan(first, last));
    IndexInjective(r[0], first);
    IndexInjective(r[|r| - 1], last);
  }

  lemma MonthListStep(prefix: seq<YearMonth>, current: YearMonth, k: nat, whole: seq<YearMonth>)
    requires k > 0 && prefix + MonthsStarting(current, k) == whole
    ensures (prefix + [current]) + MonthsStarting(NextMonth(current), k - 1) == whole
  {
    assert MonthsStarting(current, k) == [current] + MonthsStarting(NextMonth(current), k - 1);
  }

  function MonthKey(clock: Clock): SaleDoc -> YearMonth
  {
    (d: SaleDoc) => clock.monthOf(d.sale.date)
  }

  /** A month's row: its "YYYY-MM" id, its "MM/YYYY" name and the `$sum` of its totals;
      a month without counted sales has the placeholder row. */
  function MonthTotal(docs: seq<SaleDoc>, clock: Clock, ym: YearMonth): (r: MonthRow)
    ensures r.id == MonthId(ym) && r.name == MonthName(ym)
    ensures r.total == AmountWith(docs, MonthKey(clock), ym)
    ensures !HasKey(docs, MonthKey(clock), ym) ==> r == ZeroMonth(ym)
  {
    assert !HasKey(docs, MonthKey(clock), ym) ==> AmountWith(docs, MonthKey(clock), ym) == 0 by {
      if !HasKey(docs, MonthKey(clock), ym) {
        AbsentKey(docs, MonthKey(clock), ym);
      }
    }
    MonthRow(MonthId(ym), MonthName(ym), AmountWith(docs, MonthKey(clock), ym))
  }

  /** The pipeline of lines 210-282: no document when nothing matched, otherwise one
      whose `salesByMonth` holds a row per month with sales (order of the `$sort` on the
      string `_id` is left out: rows are looked up by id). */
  function SalesByMonth(docs: seq<SaleDoc>, clock: Clock): (r: Option<seq<MonthRow>>)
    ensures r.None? <==> docs == []
    ensures r.Some? ==> forall g :: g in r.value ==>
              exists ym :: HasKey(docs, MonthKey(clock), ym) && g == MonthTotal(docs, clock, ym)
    ensures r.Some? ==> forall ym :: HasKey(docs, MonthKey(clock), ym) ==> MonthTotal(docs, clock, ym) in r.value
    ensures r.Some? ==> forall i, j :: 0 <= i < j < |r.value| ==> r.value[i].id != r.value[j].id
  {
    if docs == [] then None
    else
      var months := GroupKeys(docs, MonthKey(clock));
      var rows := seq(|months|, i requires 0 <= i < |months| => MonthTotal(docs, clock, months[i]));
      MonthRowsOf(docs, clock, months, rows);
      Some(rows)
  }

  lemma MonthRowsOf(docs: seq<SaleDoc>, clock: Clock, months: seq<YearMonth>, rows: seq<MonthRow>)
    requires forall ym :: ym in months <==> HasKey(docs, MonthKey(clock), ym)
    requires forall i, j :: 0 <= i < j < |months| ==> months[i] != months[j]
    requires |rows| == |months| && forall i :: 0 <= i < |months| ==> rows[i] == MonthTotal(docs, clock, months[i])
    ensures forall g :: g in rows ==> exists ym :: HasKey(docs, MonthKey(clock), ym) && g == MonthTotal(docs, clock, ym)
    ensures forall ym :: HasKey(docs, MonthKey(clock), ym) ==> MonthTotal(docs, clock, ym) in rows
    ensures forall i, j :: 0 <= i < j < |rows| ==> rows[i].id != rows[j].id
  {
    forall i, j | 0 <= i < j < |rows| ensures rows[i].id != rows[j].id {
      if rows[i].id == rows[j].id {
        MonthIdInjective(months[i], months[j]);
      }
    }
    forall g | g in rows ensures exists ym :: HasKey(docs, MonthKey(clock), ym) && g == MonthTotal(docs, clock, ym) {
      var i :| 0 <= i < |rows| && rows[i] == g;
      assert months[i] in months;
    }
    forall ym | HasKey(docs, MonthKey(clock), ym) ensures MonthTotal(docs, clock, ym) in rows {
      var i :| 0 <= i < |months| && months[i] == ym;
      assert rows[i] == MonthTotal(docs, clock, ym);
    }
  }

  /** The `_id` of a month row, the key `find` compares. */
  function MonthRowId(): MonthRow -> string
  {
    (g: MonthRow) => g.id
  }

  /** The placeholder of a month without sales. */
  function ZeroMonth(ym: YearMonth): (r: MonthRow)
    ensures r.total == 0 && r.id == MonthId(ym) && r.name == MonthName(ym)
  {
    MonthRow(MonthId(ym), MonthName(ym), 0)
  }

  /** The entry the handler produces for a month: the pipeline's row with the month's
      `_id` when there is one, the placeholder otherwise. */
  function MonthSlot(salesByMonth: Option<seq<MonthRow>>, ym: YearMonth): (r: MonthRow)
    ensures r.id == MonthId(ym)
    ensures salesByMonth.Some? && (exists g :: g in salesByMonth.value && g.id == MonthId(ym)) ==>
              r in salesByMonth.value
    ensures salesByMonth.None? || !(exists g :: g in salesByMonth.value && g.id == MonthId(ym)) ==>
              r == ZeroMonth(ym)
  {
    if salesByMonth.None? then ZeroMonth(ym)
    else match FindById(salesByMonth.value, MonthRowId(), MonthId(ym))
         case Some(g) => g
         case None => ZeroMonth(ym)
  }

  /** Lines 287-313: the `for` loop filling the months when the pipeline produced a
      document, and the `map` to placeholders when it did not. */
  method FillMonths(monthsArray: seq<YearMonth>, salesByMonth: Option<seq<MonthRow>>) returns (filledMonths: seq<MonthRow>)
    ensures |filledMonths| == |monthsArray|
    ensures forall i :: 0 <= i < |monthsArray| ==> filledMonths[i] == MonthSlot(salesByMonth, monthsArray[i])
  {
    if salesByMonth.Some? {
      var result := salesByMonth.value;
      filledMonths := [];
      for k := 0 to |monthsArray|
        invariant |filledMonths| == k
        invariant forall i :: 0 <= i < k ==> filledMonths[i] == MonthSlot(salesByMonth, monthsArray[i])
      {
        var month := monthsArray[k];
        var foundMonth := FindById(result, MonthRowId(), MonthId(month));
        var entry := if foundMonth.Some? then foundMonth.value else ZeroMonth(month);
        PushSlot(filledMonths, monthsArray, k, salesByMonth, entry);
        filledMonths := filledMonths + [entry];
      }
    } else {
      filledMonths := seq(|monthsArray|, i requires 0 <= i < |monthsArray| => ZeroMonth(monthsArray[i]));
    }
  }

  lemma PushSlot(prev: seq<MonthRow>, months: seq<YearMonth>, k: nat, s: Option<seq<MonthRow>>, entry: MonthRow)
    requires |prev| == k < |months| && entry == MonthSlot(s, months[k])
    requires forall i :: 0 <= i < k ==> prev[i] == MonthSlot(s, months[i])
    ensures forall i :: 0 <= i < k + 1 ==> (prev + [entry])[i] == MonthSlot(s, months[i])
  {
    var next := prev + [entry];
    forall i | 0 <= i < k + 1 ensures next[i] == MonthSlot(s, months[i]) {
      if i < k {
        assert next[i] == prev[i];
      }
    }
  }

  /** Looking a month up by its `_id` lands on that month's own row: the filled entry of
      a month carries its "YYYY-MM" id, its "MM/YYYY" name and the total of its counted
      sales, 0 when it has none. */
  lemma MonthSlotIsMonthTotal(docs: seq<SaleDoc>, clock: Clock, ym: YearMonth)
    ensures MonthSlot(SalesByMonth(docs, clock), ym) == MonthTotal(docs, clock, ym)
  {
    var s := SalesByMonth(docs, clock);
    if s.None? {
      assert AmountWith(docs, MonthKey(clock), ym) == 0;
    } else {
      var found := FindById(s.value, MonthRowId(), MonthId(ym));
      if found.Some? {
        var other :| HasKey(docs, MonthKey(clock), other) && found.value == MonthTotal(docs, clock, other);
        MonthIdInjective(other, ym);
      } else {
        AbsentKey(docs, MonthKey(clock), ym);
      }
    }
  }

  /** The month chart the handler should draw: per month, its "YYYY-MM" id, its
      "MM/YYYY" name and its total of counted sales. */
  function MonthChartOf(docs: seq<SaleDoc>, clock: Clock, months: seq<YearMonth>): (r: seq<MonthRow>)
    ensures |r| == |months|
    ensures forall i :: 0 <= i < |months| ==> r[i] == MonthTotal(docs, clock, months[i])
  {
    seq(|months|, i requires 0 <= i < |months| => MonthTotal(docs, clock, months[i]))
  }

  /** Lines 198-313 for a window of instants and the months it spans. */
  method MonthChart(db: seq<SaleDoc>, clock: Clock, initialDate: int, finalDate: int, first: YearMonth, last: YearMonth)
    returns (filledMonths: seq<MonthRow>)
    ensures filledMonths == MonthChartOf(Matched(db, initialDate, finalDate), clock, MonthsStarting(first, MonthSpan(first, last)))
  {
    var monthsArray := MonthList(first, last);
    var m := Matched(db, initialDate, finalDate);
    filledMonths := FillMonths(monthsArray, SalesByMonth(m, clock));
    forall i | 0 <= i < |filledMonths|
      ensures filledMonths[i] == MonthTotal(m, clock, monthsArray[i])
    {
      MonthSlotIsMonthTotal(m, clock, monthsArray[i]);
    }
  }

  /** `getSalesByMonth`, with the window and the month list of the evident intent: twelve
      entries, one per month from the month eleven back to the current one, in order, each
      that month's total of the sales counted from the start of the window to the end of
      today (0 for a month without any). */
  method GetSalesByMonth(db: seq<SaleDoc>, clock: Clock, today: LocalDate) returns (filledMonths: seq<MonthRow>)
    requires ValidDate(today) && today.year >= 1
    ensures var first := IntendedWindowStart(today);
            filledMonths == MonthChartOf(Matched(db, clock.startOfDay(first), clock.endOfDay(today)), clock,
                                         MonthsStarting(MonthOf(first), 12))
    ensures |filledMonths| == 12
  {
    var initialDate := IntendedWindowStart(today);
    filledMonths := MonthChart(db, clock, clock.startOfDay(initialDate), clock.endOfDay(today), MonthOf(initialDate), MonthOf(today));
  }

  /** The window of "the last 12 months, including the current one" as evidently
      intended: it starts on the first day of the month eleven months back, so it spans
      twelve whole months whatever today's day. */
  function IntendedWindowStart(today: LocalDate): (r: LocalDate)
    requires ValidDate(today) && today.year >= 1
    ensures ValidDate(r) && r.day == 1
    ensures MonthIndex(MonthOf(r)) + 11 == MonthIndex(MonthOf(today))
    ensures MonthSpan(MonthOf(r), MonthOf(today)) == 12
  {
    var first := ShiftMonth(MonthOf(today), -11);
    LocalDate(first.year, first.month, 1)
  }

  /** On 31 March the window as written starts on 1 May of the year before, not in April:
      `setMonth` moves 31 March to "31 April", which rolls over. April of the year before,
      which the intended window's first month is, lies outside both the `$match` and the
      month list, which span eleven months. */
  lemma WindowSkipsApril(y: nat)
    requires y >= 1
    ensures var today := LocalDate(y, 3, 31);
            && WindowStart(today) == LocalDate(y - 1, 5, 1)
            && MonthSpan(MonthOf(WindowStart(today)), MonthOf(today)) == 11
            && MonthOf(IntendedWindowStart(today)) == YearMonth(y - 1, 4)
            && MonthIndex(YearMonth(y - 1, 4)) < MonthIndex(MonthOf(WindowStart(today)))
  {
  }

  /** On a day the month eleven back has, the window as written starts in that month but
      on today's day of the month, not on its first: for today 14 October 2026 it starts on
      14 November 2025, so the first month's entry leaves out its first thirteen days and
      the 14th up to the end of that day. */
  lemma WindowStartsMidMonth(today: LocalDate)
    requires ValidDate(today) && today.year >= 1
    requires today.day <= DaysIn(ShiftMonth(MonthOf(today), -11))
    ensures MonthOf(WindowStart(today)) == MonthOf(IntendedWindowStart(today))
    ensures WindowStart(today).day == today.day
    ensures today == LocalDate(2026, 10, 14) ==>
              WindowStart(today) == LocalDate(2025, 11, 14) && IntendedWindowStart(today) == LocalDate(2025, 11, 1)
  {
  }

  /** A sale made after the first day of the intended window starts but before the window
      as written starts (on the 1st of the first month, say, when today is not a 1st) is in
      the corrected chart's selection and not in the `$match` as written. */
  lemma FirstMonthPartial(db: seq<SaleDoc>, clock: Clock, today: LocalDate, d: SaleDoc)
    requires ValidDate(today) && today.year >= 1
    requires d in db && d.canceledAt.None?
    requires clock.startOfDay(IntendedWindowStart(today)) <= d.sale.date < clock.endOfDay(WindowStart(today))
    requires d.sale.date <= clock.endOfDay(today)
    ensures d in Matched(db, clock.startOfDay(IntendedWindowStart(today)), clock.endOfDay(today))
    ensures d !in Matched(db, clock.endOfDay(WindowStart(today)), clock.endOfDay(today))
  {
  }

  /** The window always ends in the current month and starts in the month eleven back,
      or ten back when the day rolls over, so the chart has 11 or 12 entries. */
  lemma WindowMonths(today: LocalDate)
    requires ValidDate(today) && today.year >= 1
    ensures var span := MonthIndex(MonthOf(today)) - MonthIndex(MonthOf(WindowStart(today)));
            span == 11 || (span == 10 && today.day > DaysIn(ShiftMonth(MonthOf(today), -11)))
  {
  }

  // ---------------------------------------------------------------------------
  // getSalesBySeller

  datatype SellerKey = Seller(id: Id) | Others

  /** An element of the pipeline's result: `{ _id, name, total }`. */
  datatype SellerTotal = SellerTotal(id: SellerKey, name: string, total: int)

  /** An element of the response; `percent` is absent in the bucketed form. */
  datatype SellerRow = SellerRow(id: SellerKey, name: string, total: int, percent: Option<Ratio>)

  const OthersName: string := "Outros"

  function SumSellers(s: seq<SellerTotal>): int
  {
    if s == [] then 0 else SumSellers(s[..|s| - 1]) + s[|s| - 1].total
  }

  function SumRows(r: seq<SellerRow>): int
  {
    if r == [] then 0 else SumRows(r[..|r| - 1]) + r[|r| - 1].total
  }

  lemma {:induction false} SumSellersSplit(s: seq<SellerTotal>, k: nat)
    requires k <= |s|
    ensures SumSellers(s) == SumSellers(s[..k]) + SumSellers(s[k..])
  {
    if k < |s| {
      SumSellersSplit(s[..|s| - 1], k);
      assert s[..|s| - 1][..k] == s[..k];
      assert s[k..][..|s[k..]| - 1] == s[..|s| - 1][k..];
    } else {
      assert s[..k] == s;
    }
  }

  /** A row per seller with the seller's total and no percent. */
  function Plain(s: seq<SellerTotal>): (r: seq<SellerRow>)
    ensures |r| == |s| && forall i :: 0 <= i < |s| ==> r[i] == SellerRow(s[i].id, s[i].name, s[i].total, None)
  {
    seq(|s|, i requires 0 <= i < |s| => SellerRow(s[i].id, s[i].name, s[i].total, None))
  }

  /** The grand total depends only on the rows' totals. */
  lemma {:induction false} SumRowsOfTotals(r: seq<SellerRow>, s: seq<SellerTotal>)
    requires |r| == |s| && forall i :: 0 <= i < |s| ==> r[i].total == s[i].total
    ensures SumRows(r) == SumSellers(s)
  {
    if r != [] {
      SumRowsOfTotals(r[..|r| - 1], s[..|s| - 1]);
    }
  }

  /** Lines 366-395: more than five sellers are cut to the first four plus "Outros"
      carrying the rest's total; otherwise every seller gets its share of the total as a
      percentage. Either way no amount is lost. */
  method BucketSellers(salesBySeller: seq<SellerTotal>) returns (r: seq<SellerRow>)
    ensures |salesBySeller| > 5 ==>
              && |r| == 5
              && (forall i :: 0 <= i < 4 ==>
                    r[i] == SellerRow(salesBySeller[i].id, salesBySeller[i].name, salesBySeller[i].total, None))
              && r[4] == SellerRow(Others, OthersName, SumSellers(salesBySeller[4..]), None)
    ensures |salesBySeller| <= 5 ==>
              && |r| == |salesBySeller|
              && forall i :: 0 <= i < |r| ==>
                   r[i] == SellerRow(salesBySeller[i].id, salesBySeller[i].name, salesBySeller[i].total,
                                     Some(PercentOf(salesBySeller[i].total, SumSellers(salesBySeller))))
    ensures |salesBySeller| <= 5 ==> r == Shares(salesBySeller)
    ensures SumRows(r) == SumSellers(salesBySeller)
  {
    if |salesBySeller| > 5 {
      var topSellers := Plain(salesBySeller[..4]);
      var remainingSellers := salesBySeller[4..];
      var totalRemainingSales := SumSellers(remainingSellers);
      r := topSellers + [SellerRow(Others, OthersName, totalRemainingSales, None)];
      SumSellersSplit(salesBySeller, 4);
      SumRowsOfTotals(topSellers, salesBySeller[..4]);
      assert r[..4] == topSellers;
    } else {
      var totalSales := SumSellers(salesBySeller);
      r := Plain(salesBySeller);
      var i := 0;
      while i < |r|
        invariant 0 <= i <= |r| == |salesBySeller|
        invariant forall j :: 0 <= j < |r| ==> r[j].id == salesBySeller[j].id && r[j].name == salesBySeller[j].name
        invariant forall j :: 0 <= j < |r| ==> r[j].total == salesBySeller[j].total
        invariant forall j :: 0 <= j < i ==> r[j].percent == Some(PercentOf(salesBySeller[j].total, totalSales))
      {
        r := r[i := r[i].(percent := Some(PercentOf(r[i].total, totalSales)))];
        i := i + 1;
      }
      SumRowsOfTotals(r, salesBySeller);
    }
  }

  /** Sum of the finite percentages of the rows. */
  function SumPercents(r: seq<SellerRow>): real
  {
    if r == [] then 0.0
    else SumPercents(r[..|r| - 1]) + (match r[|r| - 1].percent
                                      case Some(Finite(v)) => v
                                      case _ => 0.0)
  }

  lemma {:induction false} SumPercentsScaled(r: seq<SellerRow>, total: int)
    requires total != 0
    requires forall i :: 0 <= i < |r| ==> r[i].percent == Some(PercentOf(r[i].total, total))
    ensures SumPercents(r) * (total as real) == (SumRows(r) as real) * 100.0
  {
    if r != [] {
      var init := r[..|r| - 1];
      SumPercentsScaled(init, total);
      var v := PercentOf(r[|r| - 1].total, total).value;
      assert v * (total as real) == (r[|r| - 1].total as real) * 100.0;
      calc {
        SumPercents(r) * (total as real);
        (SumPercents(init) + v) * (total as real);
        SumPercents(init) * (total as real) + v * (total as real);
        (SumRows(init) as real) * 100.0 + (r[|r| - 1].total as real) * 100.0;
      }
    }
  }

  /** When every row carries its share of a non-zero grand total, the percentages add
      up to 100. */
  lemma PercentsAddUp(r: seq<SellerRow>, totalSales: int)
    requires totalSales == SumRows(r) && totalSales != 0
    requires forall i :: 0 <= i < |r| ==> r[i].percent == Some(PercentOf(r[i].total, totalSales))
    ensures SumPercents(r) == 100.0
  {
    SumPercentsScaled(r, totalSales);
    CancelFactor(SumPercents(r), 100.0, totalSales as real);
  }

  /** The rows of the five-or-fewer branch: every seller with its share of the total. */
  function Shares(s: seq<SellerTotal>): (r: seq<SellerRow>)
    ensures |r| == |s|
    ensures forall i :: 0 <= i < |s| ==>
              r[i] == SellerRow(s[i].id, s[i].name, s[i].total, Some(PercentOf(s[i].total, SumSellers(s))))
  {
    seq(|s|, i requires 0 <= i < |s| => SellerRow(s[i].id, s[i].name, s[i].total, Some(PercentOf(s[i].total, SumSellers(s)))))
  }

  /** With five sellers or fewer and a non-zero grand total, the percentages the handler
      sends add up to 100; with a zero grand total every percentage is NaN or Infinity. */
  lemma SharesAddUp(s: seq<SellerTotal>)
    ensures SumSellers(s) != 0 ==> SumPercents(Shares(s)) == 100.0
    ensures SumSellers(s) == 0 ==> forall i :: 0 <= i < |s| ==> Shares(s)[i].percent == Some(NotFinite)
  {
    var r := Shares(s);
    SumRowsOfTotals(r, s);
    if SumSellers(s) != 0 {
      PercentsAddUp(r, SumSellers(s));
    }
  }

  lemma CancelFactor(a: real, b: real, t: real)
    requires t != 0.0 && a * t == t * b
    ensures a == b
  {
  }

  function UserKey(): SaleDoc -> Id
  {
    (d: SaleDoc) => d.sale.user
  }

  function TotalKey(): SellerTotal -> int
  {
    (s: SellerTotal) => s.total
  }

  function SellerId(): SellerTotal -> SellerKey
  {
    (s: SellerTotal) => s.id
  }

  /** The counted sales whose user document exists (the `$lookup`/`$unwind` pair). */
  function Joined(db: seq<SaleDoc>, initialDate: int, finalDate: int, userNames: map<Id, string>): (r: seq<SaleDoc>)
    ensures forall d :: d in r <==> d in db && Active(d, initialDate, finalDate) && d.sale.user in userNames
  {
    Where(Matched(db, initialDate, finalDate), (d: SaleDoc) => d.sale.user in userNames)
  }

  /** The `$group` by user with the user's name and the sum of totals. */
  function SellerGroups(joined: seq<SaleDoc>, userNames: map<Id, string>): (r: seq<SellerTotal>)
    requires forall d :: d in joined ==> d.sale.user in userNames
    ensures forall g :: g in r <==>
              exists u :: HasKey(joined, UserKey(), u) && g == SellerTotal(Seller(u), userNames[u], AmountWith(joined, UserKey(), u))
    ensures forall i, j :: 0 <= i < j < |r| ==> r[i].id != r[j].id
  {
    var ids := GroupKeys(joined, UserKey());
    assert forall i :: 0 <= i < |ids| ==> ids[i] in userNames by {
      forall i | 0 <= i < |ids| ensures ids[i] in userNames {
        assert HasKey(joined, UserKey(), ids[i]);
        var j :| 0 <= j < |joined| && UserKey()(joined[j]) == ids[i];
        assert joined[j] in joined;
      }
    }
    var r := seq(|ids|, i requires 0 <= i < |ids| =>
                 SellerTotal(Seller(ids[i]), userNames[ids[i]], AmountWith(joined, UserKey(), ids[i])));
    SellerGroupsOf(joined, userNames, ids, r);
    r
  }

  lemma SellerGroupsOf(joined: seq<SaleDoc>, userNames: map<Id, string>, ids: seq<Id>, r: seq<SellerTotal>)
    requires forall u :: u in ids <==> HasKey(joined, UserKey(), u)
    requires forall i :: 0 <= i < |ids| ==> ids[i] in userNames
    requires |r| == |ids| &&
             forall i :: 0 <= i < |ids| ==> r[i] == SellerTotal(Seller(ids[i]), userNames[ids[i]], AmountWith(joined, UserKey(), ids[i]))
    ensures forall g :: g in r <==>
              exists u :: HasKey(joined, UserKey(), u) && u in userNames &&
                          g == SellerTotal(Seller(u), userNames[u], AmountWith(joined, UserKey(), u))
  {
    forall g | g in r ensures exists u :: HasKey(joined, UserKey(), u) && u in userNames &&
                                  g == SellerTotal(Seller(u), userNames[u], AmountWith(joined, UserKey(), u)) {
      var i :| 0 <= i < |r| && r[i] == g;
      assert ids[i] in ids;
    }
    forall u | HasKey(joined, UserKey(), u) && u in userNames
      ensures SellerTotal(Seller(u), userNames[u], AmountWith(joined, UserKey(), u)) in r {
      var i :| 0 <= i < |ids| && ids[i] == u;
      assert r[i] == SellerTotal(Seller(u), userNames[u], AmountWith(joined, UserKey(), u));
    }
  }

  /** The pipeline of lines 329-362: one entry per seller with counted sales, carrying the
      seller's name and the sum of those sales' totals, by descending total. */
  function SalesBySeller(db: seq<SaleDoc>, initialDate: int, finalDate: int, userNames: map<Id, string>)
    : (r: seq<SellerTotal>)
    ensures SortedDesc(r, TotalKey())
    ensures forall i, j :: 0 <= i < j < |r| ==> r[i].id != r[j].id
    ensures var joined := Joined(db, initialDate, finalDate, userNames);
            forall g :: g in r <==>
              exists u :: HasKey(joined, UserKey(), u) && u in userNames &&
                          g == SellerTotal(Seller(u), userNames[u], AmountWith(joined, UserKey(), u))
  {
    var joined := Joined(db, initialDate, finalDate, userNames);
    var groups := SellerGroups(joined, userNames);
    var r := SortDesc(groups, TotalKey());
    DistinctKeysPermuted(groups, r, SellerId());
    SameElements(groups, r);
    r
  }

  lemma SameElements(a: seq<SellerTotal>, b: seq<SellerTotal>)
    requires multiset(a) == multiset(b)
    ensures forall g :: g in a <==> g in b
  {
    forall g ensures g in a <==> g in b {
      assert g in a <==> g in multiset(a);
      assert g in b <==> g in multiset(b);
    }
  }

  /** `getSalesBySeller`, over the window as written: from the end of the day eleven months
      before today (`WindowStart`) to the end of today. */
  method GetSalesBySeller(db: seq<SaleDoc>, clock: Clock, today: LocalDate, userNames: map<Id, string>)
    returns (r: seq<SellerRow>)
    requires ValidDate(today) && today.year >= 1
    ensures var s := SalesBySeller(db, clock.endOfDay(WindowStart(today)), clock.endOfDay(today), userNames);
            && (|s| > 5 ==>
                  && |r| == 5
                  && (forall i :: 0 <= i < 4 ==> r[i] == SellerRow(s[i].id, s[i].name, s[i].total, None))
                  && r[4] == SellerRow(Others, OthersName, SumSellers(s[4..]), None))
            && (|s| <= 5 ==>
                  && |r| == |s|
                  && forall i :: 0 <= i < |r| ==>
                       r[i] == SellerRow(s[i].id, s[i].name, s[i].total, Some(PercentOf(s[i].total, SumSellers(s)))))
            && (|s| <= 5 ==> r == Shares(s))
            && SumRows(r) == SumSellers(s)
  {
    var initialDate, finalDate := clock.endOfDay(WindowStart(today)), clock.endOfDay(today);
    var salesBySeller := SalesBySeller(db, initialDate, finalDate, userNames);
    r := BucketSellers(salesBySeller);
  }
}
