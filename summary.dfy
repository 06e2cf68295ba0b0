/** ReportGenerator.cs, end of the by-date pass: the period totals written by
    `WriteSummaryInfoReport` and the expected dates with no order at all
    (`FindMissingDates`). */
module SummaryInfo {
  import opened Cells
  import opened SpreadsheetModels
  import opened DailyReports
  import opened WeekdayCalendar

  /** `items.Select(item => item.OrderDate.Date)` */
  function ItemDates(items: seq<Order>): seq<DateTime> {
    if items == [] then []
    else ItemDates(items[..|items| - 1]) + [DateOf(items[|items| - 1].orderDate)]
  }

  lemma {:induction false} ItemDatesSpec(items: seq<Order>)
    ensures forall d :: d in ItemDates(items) <==> exists o :: o in items && DateOf(o.orderDate) == d
    decreases |items|
  {
    if items != [] {
      var prefix := items[..|items| - 1];
      ItemDatesSpec(prefix);
      assert items == prefix + [items[|items| - 1]];
    }
  }

  /** `FindMissingDates`: the dates, in their order, whose day is the day of
      no order (the time of day is ignored on both sides). */
  function FindMissingDates(items: seq<Order>, allDates: seq<DateTime>): seq<DateTime> {
    if allDates == [] then []
    else
      var date := allDates[|allDates| - 1];
      FindMissingDates(items, allDates[..|allDates| - 1])
      + (if DateOf(date) in ItemDates(items) then [] else [date])
  }

  /** `a` is `b` with some elements left out, the rest in order. */
  predicate IsSubsequence(a: seq<DateTime>, b: seq<DateTime>)
    decreases |b|
  {
    if b == [] then a == []
    else
      || IsSubsequence(a, b[..|b| - 1])
      || (a != [] && a[|a| - 1] == b[|b| - 1] && IsSubsequence(a[..|a| - 1], b[..|b| - 1]))
  }

  predicate NoOrderOn(items: seq<Order>, date: DateTime) {
    forall o :: o in items ==> DateOf(o.orderDate) != DateOf(date)
  }

  /** The missing dates are exactly the given dates that no order falls on,
      kept in their original order. */
  lemma {:induction false} FindMissingDatesSpec(items: seq<Order>, allDates: seq<DateTime>)
    ensures forall d :: d in FindMissingDates(items, allDates) <==> d in allDates && NoOrderOn(items, d)
    ensures IsSubsequence(FindMissingDates(items, allDates), allDates)
    decreases |allDates|
  {
    ItemDatesSpec(items);
    if allDates != [] {
      var prefix := allDates[..|allDates| - 1];
      var date := allDates[|allDates| - 1];
      FindMissingDatesSpec(items, prefix);
      assert allDates == prefix + [date];
      var m := FindMissingDates(items, prefix);
      assert allDates[..|allDates| - 1] == prefix;
      if DateOf(date) !in ItemDates(items) {
        assert FindMissingDates(items, allDates) == m + [date];
        assert (m + [date])[..|m|] == m;
      } else {
        assert FindMissingDates(items, allDates) == m;
      }
    }
  }

  /** For the weekdays of a month: a date is missing exactly when it is a
      Monday..Friday of the month on whose day no order was placed. */
  lemma MissingWeekdays(items: seq<Order>, month: int, year: int)
    requires ValidMonth(month, year)
    ensures var missing := FindMissingDates(items, GetWeekdaysInMonth(month, year).value);
      forall dom :: DateTime(Day(year, month, dom), 0) in missing <==>
        && 1 <= dom <= DaysInMonth(year, month)
        && IsWeekday(Day(year, month, dom))
        && forall o :: o in items ==> o.orderDate.day != Day(year, month, dom)
  {
    var dates := GetWeekdaysInMonth(month, year).value;
    GetWeekdaysInMonthSpec(month, year);
    WeekdaysUpToSpec(year, month, DaysInMonth(year, month));
    FindMissingDatesSpec(items, dates);
  }

  /** Adults plus children over the orders. */
  function Persons(os: seq<Order>): int {
    if os == [] then 0 else Persons(os[..|os| - 1]) + os[|os| - 1].adults + os[|os| - 1].children
  }

  /** `allOrders.Where(x => x.IsCity)` */
  function CityOrders(os: seq<Order>): seq<Order> {
    if os == [] then []
    else CityOrders(os[..|os| - 1]) + (if os[|os| - 1].isCity then [os[|os| - 1]] else [])
  }

  /** The figures of the summary, in the order they are written. */
  datatype Summary = Summary(
    formsProcessed: int,
    totalVouchers: int,
    totalNewClients: int,
    totalOrders: int,
    totalPersons: int,
    cityOrders: int,
    cityPersons: int,
    missingDates: seq<DateTime>)

  /** `WriteSummaryInfoReport`: the form count, the declared voucher and new
      client totals, and the order, person and city figures over all orders,
      then the expected dates without any order. */
  function SummaryOf(formCount: int, totalVouchers: int, totalNewClients: int, allOrders: seq<Order>,
                     currentDates: seq<DateTime>): Summary
  {
    Summary(formCount, totalVouchers, totalNewClients, |allOrders|, Persons(allOrders),
            |CityOrders(allOrders)|, Persons(CityOrders(allOrders)), FindMissingDates(allOrders, currentDates))
  }

  predicate NonNegativeCounts(os: seq<Order>) {
    forall o :: o in os ==> o.adults >= 0 && o.children >= 0
  }

  /** Total persons is the adults' sum plus the children's sum; the city
      orders are the orders with `isCity`, no more than all orders, and with
      non-negative head counts the city persons are no more than all persons. */
  lemma {:induction false} SummaryTotals(os: seq<Order>)
    ensures Persons(os) == SumAdults(os) + SumChildren(os)
    ensures forall o :: o in CityOrders(os) <==> o in os && o.isCity
    ensures |CityOrders(os)| <= |os|
    ensures NonNegativeCounts(os) ==> 0 <= Persons(CityOrders(os)) <= Persons(os)
    decreases |os|
  {
    if os != [] {
      var prefix := os[..|os| - 1];
      var o := os[|os| - 1];
      SummaryTotals(prefix);
      assert os == prefix + [o];
      var c := CityOrders(prefix);
      if o.isCity {
        assert CityOrders(os) == c + [o];
        assert (c + [o])[..|c|] == c;
        assert Persons(CityOrders(os)) == Persons(c) + o.adults + o.children;
      } else {
        assert CityOrders(os) == c;
      }
      if NonNegativeCounts(os) {
        assert o in os;
        assert NonNegativeCounts(prefix);
      }
    }
  }
}
