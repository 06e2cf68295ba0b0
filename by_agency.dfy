/** ReportGenerator.cs, by-agency aggregation: `CreateByAgencyReport` groups
    all orders by agency name, sorts the groups by name and builds, for every
    agency, one `DailyReport` per expected date; `HasIllegalCharacters` guards
    the agency name used as a file name. */
module ByAgencyReports {
  import opened Wrappers
  import opened Cells
  import opened SpreadsheetModels
  import opened DailyReports
  import opened ByDateReports

  /** Ordinal string order: by character code, a proper prefix first. */
  predicate StrLess(a: string, b: string)
    decreases |a|
  {
    if |a| == 0 then |b| > 0
    else |b| > 0 && (a[0] < b[0] || (a[0] == b[0] && StrLess(a[1..], b[1..])))
  }

  lemma {:induction false} StrLessIrreflexive(a: string)
    ensures !StrLess(a, a)
    decreases |a|
  {
    if |a| > 0 {
      StrLessIrreflexive(a[1..]);
    }
  }

  lemma {:induction false} StrLessTransitive(a: string, b: string, c: string)
    requires StrLess(a, b) && StrLess(b, c)
    ensures StrLess(a, c)
    decreases |a|
  {
    if |a| > 0 && a[0] == b[0] && b[0] == c[0] {
      StrLessTransitive(a[1..], b[1..], c[1..]);
    }
  }

  lemma {:induction false} StrLessTotal(a: string, b: string)
    requires a != b
    ensures StrLess(a, b) || StrLess(b, a)
    decreases |a|
  {
    if |a| > 0 && |b| > 0 && a[0] == b[0] {
      assert a == [a[0]] + a[1..] && b == [b[0]] + b[1..];
      StrLessTotal(a[1..], b[1..]);
    }
  }

  predicate StrictlyAscending(names: seq<string>) {
    forall i, j :: 0 <= i < j < |names| ==> StrLess(names[i], names[j])
  }

  /** `name` inserted into an ascending list, where it does not yet occur. */
  function Insert(names: seq<string>, name: string): seq<string>
    decreases |names|
  {
    if |names| == 0 then [name]
    else if StrLess(name, names[0]) then [name] + names
    else [names[0]] + Insert(names[1..], name)
  }

  lemma {:induction false} InsertSpec(names: seq<string>, name: string)
    requires StrictlyAscending(names) && name !in names
    ensures StrictlyAscending(Insert(names, name))
    ensures forall x :: x in Insert(names, name) <==> x in names || x == name
    decreases |names|
  {
    if |names| > 0 {
      if StrLess(name, names[0]) {
        forall j | 0 < j < |names|
          ensures StrLess(name, names[j])
        {
          StrLessTransitive(name, names[0], names[j]);
        }
      } else {
        StrLessTotal(name, names[0]);
        InsertSpec(names[1..], name);
        var tail := Insert(names[1..], name);
        forall j | 0 <= j < |tail|
          ensures StrLess(names[0], tail[j])
        {
          assert tail[j] in names[1..] || tail[j] == name;
        }
      }
    }
  }

  /** `GroupBy(x => x.AgencyName).OrderBy(x => x.Key)`: the group keys, in
      ascending order. */
  function SortedNames(orders: seq<Order>): seq<string> {
    SortInto([], AgencyNames(orders))
  }

  function SortInto(sorted: seq<string>, rest: seq<string>): seq<string>
    decreases |rest|
  {
    if |rest| == 0 then sorted else SortInto(Insert(sorted, rest[0]), rest[1..])
  }

  lemma {:induction false} SortIntoSpec(sorted: seq<string>, rest: seq<string>)
    requires StrictlyAscending(sorted)
    requires forall i, j :: 0 <= i < j < |rest| ==> rest[i] != rest[j]
    requires forall x :: x in rest ==> x !in sorted
    ensures StrictlyAscending(SortInto(sorted, rest))
    ensures forall x :: x in SortInto(sorted, rest) <==> x in sorted || x in rest
    decreases |rest|
  {
    if |rest| > 0 {
      InsertSpec(sorted, rest[0]);
      forall x | x in rest[1..]
        ensures x !in Insert(sorted, rest[0])
      {
        var k :| 1 <= k < |rest| && rest[k] == x;
      }
      SortIntoSpec(Insert(sorted, rest[0]), rest[1..]);
      assert rest == [rest[0]] + rest[1..];
    }
  }

  /** One group per distinct agency name, in strictly ascending ordinal
      order (so no name twice), and every name of an order is there. */
  lemma SortedNamesSpec(orders: seq<Order>)
    ensures StrictlyAscending(SortedNames(orders))
    ensures forall name :: name in SortedNames(orders) <==> exists o :: o in orders && o.agencyName == name
  {
    AgencyNamesSpec(orders);
    SortIntoSpec([], AgencyNames(orders));
  }

  /** `ordersByDate.TryGetValue(date, ...)`: the group's orders whose date is
      exactly `date`, time of day included. */
  function OnDate(group: seq<Order>, date: DateTime): seq<Order> {
    if group == [] then []
    else
      OnDate(group[..|group| - 1], date)
      + (if group[|group| - 1].orderDate == date then [group[|group| - 1]] else [])
  }

  /** What the report of an agency for a date should hold. */
  function ExpectedReport(group: seq<Order>, date: DateTime): ReportValue
    requires |group| > 0
  {
    ReportValue(group[0].agencyNumber, group[0].agencyName, date, TallyOf(OnDate(group, date)))
  }

  /** The sums over one date's orders, accumulated one order at a time; no
      orders leave every sum at 0. */
  method SumDateOrders(dateOrders: seq<Order>) returns (sums: Tally)
    ensures sums == TallyOf(dateOrders)
  {
    var sumAdults, sumChildren, sumOrders, sumVouchers, sumNewClients := 0, 0, 0, 0, 0;
    if |dateOrders| > 0 {
      for k := 0 to |dateOrders|
        invariant Tally(k, sumAdults, sumChildren, sumVouchers, sumNewClients) == TallyOf(dateOrders[..k])
      {
        var order := dateOrders[k];
        assert dateOrders[..k + 1] == dateOrders[..k] + [order];
        TallyOfSnoc(dateOrders[..k], order);
        sumAdults := sumAdults + order.adults;
        sumChildren := sumChildren + order.children;
        if order.hasVoucher {
          sumVouchers := sumVouchers + 1;
        }
        if order.isNewClient {
          sumNewClients := sumNewClients + 1;
        }
      }
      assert dateOrders[..|dateOrders|] == dateOrders;
      sumOrders := |dateOrders|;
    }
    sums := Tally(sumOrders, sumAdults, sumChildren, sumVouchers, sumNewClients);
  }

  /** `new DailyReport(date) { AgencyName = ..., AgencyNumber = ..., Sum... }` */
  method MakeReport(date: DateTime, agencyNumber: int, agencyName: string, sums: Tally) returns (r: DailyReport)
    ensures fresh(r) && r.Value() == ReportValue(agencyNumber, agencyName, date, sums)
  {
    r := new DailyReport(date);
    r.agencyName := agencyName;
    r.agencyNumber := agencyNumber;
    r.sumAdults := sums.adults;
    r.sumChildren := sums.children;
    r.sumOrders := sums.orders;
    r.sumVouchers := sums.vouchers;
    r.sumNewClients := sums.newClients;
  }

  /** The reports of one agency: one per date, in date order, each as
      `ExpectedReport` says. */
  predicate Holds(reports: seq<DailyReport>, group: seq<Order>, dates: seq<DateTime>)
    reads reports
  {
    && |group| > 0
    && |reports| == |dates|
    && forall d :: 0 <= d < |dates| ==> reports[d].Value() == ExpectedReport(group, dates[d])
  }

  /** The loop over `CurrentDates` for one agency group: one new report per
      date, in date order. */
  method AgencyReports(group: seq<Order>, currentDates: seq<DateTime>) returns (reports: seq<DailyReport>)
    requires |group| > 0
    ensures forall d :: 0 <= d < |reports| ==> fresh(reports[d])
    ensures Holds(reports, group, currentDates)
  {
    reports := [];
    for d := 0 to |currentDates|
      invariant |reports| == d
      invariant forall e :: 0 <= e < d ==> fresh(reports[e])
      invariant forall e :: 0 <= e < d ==> reports[e].Value() == ExpectedReport(group, currentDates[e])
    {
      var date := currentDates[d];
      var dateOrders := OnDate(group, date);
      var sums := SumDateOrders(dateOrders);
      var report := MakeReport(date, group[0].agencyNumber, group[0].agencyName, sums);
      reports := reports + [report];
    }
  }

  /** `HasIllegalCharacters`: some character of the name is in the platform's
      set of characters not allowed in file names. */
  method HasIllegalCharacters(filename: string, invalidChars: set<char>) returns (r: bool)
    ensures r <==> exists i :: 0 <= i < |filename| && filename[i] in invalidChars
  {
    for i := 0 to |filename|
      invariant forall k :: 0 <= k < i ==> filename[k] !in invalidChars
    {
      if filename[i] in invalidChars {
        return true;
      }
    }
    return false;
  }

  predicate IsLegalName(name: string, invalidChars: set<char>) {
    forall i :: 0 <= i < |name| ==> name[i] !in invalidChars
  }

  /** The number of leading names that are legal file names. */
  function LegalPrefix(names: seq<string>, invalidChars: set<char>): (n: nat)
    ensures n <= |names|
    ensures forall i :: 0 <= i < n ==> IsLegalName(names[i], invalidChars)
    ensures n < |names| ==> !IsLegalName(names[n], invalidChars)
    decreases |names|
  {
    if |names| == 0 || !IsLegalName(names[0], invalidChars) then 0
    else 1 + LegalPrefix(names[1..], invalidChars)
  }

  /** `CreateByAgencyReport`: for each agency in name order, its reports for
      every date of `CurrentDates`, handed to the report writer (`written`).
      With no dates, `reports[0]` fails on the first agency; an agency whose
      name is not a legal file name fails before its reports are written.
      Reports written before a failure stay written. */
  method CreateByAgencyReport(allOrders: seq<Order>, currentDates: seq<DateTime>, invalidChars: set<char>)
    returns (written: seq<seq<DailyReport>>, failure: Option<Failure>)
    ensures var names := SortedNames(allOrders);
      && (|currentDates| == 0 ==>
            written == [] && failure == (if |names| == 0 then None else Some(ArgumentOutOfRange("index"))))
      && (|currentDates| > 0 ==>
            var n := LegalPrefix(names, invalidChars);
            && |written| == n
            && failure == (if n < |names| then Some(IllegalAgencyName(names[n])) else None))
    ensures forall g :: 0 <= g < |written| ==>
      Holds(written[g], WithName(allOrders, SortedNames(allOrders)[g]), currentDates)
  {
    var names := SortedNames(allOrders);
    written := [];
    for g := 0 to |names|
      invariant |currentDates| == 0 ==> g == 0
      invariant |currentDates| > 0 ==> g <= LegalPrefix(names, invalidChars)
      invariant |written| == g
      invariant AllHold(written, allOrders, names, currentDates)
    {
      var name := names[g];
      var group := WithName(allOrders, name);
      SortedNameGroup(allOrders, g);
      var reports := AgencyReports(group, currentDates);
      if |reports| == 0 {
        return written, Some(ArgumentOutOfRange("index"));
      }
      var fileName := reports[0].agencyName;
      FirstReportName(reports, group, currentDates);
      LegalPrefixStep(names, invalidChars, g);
      var illegal := HasIllegalCharacters(fileName, invalidChars);
      if illegal {
        return written, Some(IllegalAgencyName(fileName));
      }
      AllHoldSnoc(written, reports, allOrders, names, currentDates);
      written := written + [reports];
    }
    failure := None;
  }

  /** The reports of all the lists. */
  function ReportObjects(written: seq<seq<DailyReport>>): (objects: set<DailyReport>)
    ensures forall h :: 0 <= h < |written| ==> forall r :: r in written[h] ==> r in objects
  {
    set h, r | 0 <= h < |written| && r in written[h] :: r
  }

  /** Each report list written so far holds the reports of its agency. */
  predicate AllHold(written: seq<seq<DailyReport>>, orders: seq<Order>, names: seq<string>, dates: seq<DateTime>)
    reads ReportObjects(written)
  {
    && |written| <= |names|
    && forall h :: 0 <= h < |written| ==> Holds(written[h], WithName(orders, names[h]), dates)
  }

  lemma AllHoldSnoc(written: seq<seq<DailyReport>>, reports: seq<DailyReport>, orders: seq<Order>,
                    names: seq<string>, dates: seq<DateTime>)
    requires AllHold(written, orders, names, dates) && |written| < |names|
    requires Holds(reports, WithName(orders, names[|written|]), dates)
    ensures AllHold(written + [reports], orders, names, dates)
  {
    var all := written + [reports];
    forall h | 0 <= h < |all|
      ensures Holds(all[h], WithName(orders, names[h]), dates)
    {
      if h < |written| {
        assert all[h] == written[h];
      }
    }
  }

  /** The file of an agency is named after the first report, which carries the
      name of the group's first order. */
  lemma FirstReportName(reports: seq<DailyReport>, group: seq<Order>, dates: seq<DateTime>)
    requires Holds(reports, group, dates) && |dates| > 0
    ensures reports[0].agencyName == group[0].agencyName
  {
    assert reports[0].Value() == ExpectedReport(group, dates[0]);
  }

  /** Inside the legal prefix, the next name either extends it or ends it. */
  lemma LegalPrefixStep(names: seq<string>, invalidChars: set<char>, g: int)
    requires 0 <= g < |names| && g <= LegalPrefix(names, invalidChars)
    ensures IsLegalName(names[g], invalidChars) ==> g + 1 <= LegalPrefix(names, invalidChars)
    ensures !IsLegalName(names[g], invalidChars) ==> g == LegalPrefix(names, invalidChars)
  {
  }

  /** The group of the g-th sorted name is not empty and starts with an
      order of that name. */
  lemma SortedNameGroup(orders: seq<Order>, g: int)
    requires 0 <= g < |SortedNames(orders)|
    ensures |WithName(orders, SortedNames(orders)[g])| > 0
    ensures WithName(orders, SortedNames(orders)[g])[0].agencyName == SortedNames(orders)[g]
  {
    var name := SortedNames(orders)[g];
    SortedNamesSpec(orders);
    assert name in SortedNames(orders);
    WithNamePresent(orders, name);
    WithNameNames(orders, name);
    assert WithName(orders, name)[0] in WithName(orders, name);
  }

  /** An agency with an order has a non-empty group. */
  lemma {:induction false} WithNamePresent(orders: seq<Order>, name: string)
    requires exists o :: o in orders && o.agencyName == name
    ensures |WithName(orders, name)| > 0
    decreases |orders|
  {
    var last := orders[|orders| - 1];
    if last.agencyName != name {
      var o :| o in orders && o.agencyName == name;
      assert o in orders[..|orders| - 1] by {
        assert orders == orders[..|orders| - 1] + [last];
      }
      WithNamePresent(orders[..|orders| - 1], name);
    }
  }

  /** Every order of a group has the group's name. */
  lemma {:induction false} WithNameNames(orders: seq<Order>, name: string)
    ensures forall o :: o in WithName(orders, name) ==> o.agencyName == name
    decreases |orders|
  {
    if orders != [] {
      WithNameNames(orders[..|orders| - 1], name);
    }
  }

  /** Orders dated outside the reported dates contribute nothing: adding any
      number of them changes no report of any agency for any of the dates. */
  lemma {:induction false} OtherDatesIgnored(orders: seq<Order>, extra: seq<Order>, name: string, date: DateTime)
    requires forall o :: o in extra ==> o.orderDate != date
    ensures OnDate(WithName(orders + extra, name), date) == OnDate(WithName(orders, name), date)
    decreases |extra|
  {
    if extra == [] {
      assert orders + extra == orders;
    } else {
      var rest := extra[..|extra| - 1];
      var o := extra[|extra| - 1];
      assert (orders + extra)[..|orders + extra| - 1] == orders + rest;
      assert o in extra;
      assert (orders + extra)[|orders + extra| - 1] == o;
      OtherDatesIgnored(orders, rest, name, date);
      if o.agencyName == name {
        var g := WithName(orders + rest, name);
        assert WithName(orders + extra, name) == g + [o];
        assert (g + [o])[..|g|] == g;
        assert OnDate(g + [o], date) == OnDate(g, date);
      } else {
        assert WithName(orders + extra, name) == WithName(orders + rest, name);
      }
    }
  }

  /** A date with no order of the agency gets a report whose sums are all 0. */
  lemma NoOrdersNoSums(group: seq<Order>, date: DateTime)
    requires |group| > 0
    requires forall o :: o in group ==> o.orderDate != date
    ensures ExpectedReport(group, date).tally == NoOrders
  {
    OnDateEmpty(group, date);
  }

  lemma {:induction false} OnDateEmpty(group: seq<Order>, date: DateTime)
    requires forall o :: o in group ==> o.orderDate != date
    ensures OnDate(group, date) == []
    decreases |group|
  {
    if group != [] {
      assert group[|group| - 1] in group;
      OnDateEmpty(group[..|group| - 1], date);
    }
  }
}
