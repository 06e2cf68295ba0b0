/** ReportGenerator.cs, by-date aggregation: `CreateByDateReport` folds one
    order form's orders into one `DailyReport` per agency, creating a report
    at an agency's first order and adding to it in place afterwards. */
module ByDateReports {
  import opened Cells
  import opened SpreadsheetModels
  import opened DailyReports

  /** The distinct agency names of the orders, in order of first appearance. */
  function AgencyNames(orders: seq<Order>): seq<string> {
    if orders == [] then []
    else
      var names := AgencyNames(orders[..|orders| - 1]);
      var name := orders[|orders| - 1].agencyName;
      if name in names then names else names + [name]
  }

  /** The orders of one agency, in their original order. */
  function WithName(orders: seq<Order>, name: string): seq<Order> {
    if orders == [] then []
    else
      WithName(orders[..|orders| - 1], name)
      + (if orders[|orders| - 1].agencyName == name then [orders[|orders| - 1]] else [])
  }

  /** What the report of an agency that has orders should hold: number and
      date from its first order, sums over all of its orders. */
  function AgencyReport(orders: seq<Order>, name: string): ReportValue
    requires |WithName(orders, name)| > 0
  {
    var mine := WithName(orders, name);
    ReportValue(mine[0].agencyNumber, name, mine[0].orderDate, TallyOf(mine))
  }

  /** The index of the first report of the agency, or |reports| when there is
      none. */
  function IndexOfName(reports: seq<ReportValue>, name: string): (i: nat)
    ensures i <= |reports|
    ensures i < |reports| ==> reports[i].agencyName == name
    ensures forall k :: 0 <= k < i ==> reports[k].agencyName != name
    decreases |reports|
  {
    if |reports| == 0 then 0
    else if reports[0].agencyName == name then 0
    else 1 + IndexOfName(reports[1..], name)
  }

  /** One step of the fold: a new report for an agency not seen yet, otherwise
      the order's contribution added to the agency's report where it stands. */
  function AddOrder(reports: seq<ReportValue>, order: Order): seq<ReportValue> {
    var i := IndexOfName(reports, order.agencyName);
    if i == |reports| then
      reports + [ReportValue(order.agencyNumber, order.agencyName, order.orderDate, OrderTally(order))]
    else
      reports[i := reports[i].(tally := AddTally(reports[i].tally, OrderTally(order)))]
  }

  /** The fold `CreateByDateReport` performs, over the orders in turn. */
  function FoldReports(orders: seq<Order>): seq<ReportValue> {
    if orders == [] then [] else AddOrder(FoldReports(orders[..|orders| - 1]), orders[|orders| - 1])
  }

  /** `reports.FirstOrDefault(x => x.AgencyName == name)`, as an index:
      |reports| stands for the null default. */
  method FindReport(reports: seq<DailyReport>, name: string) returns (idx: int)
    ensures 0 <= idx <= |reports|
    ensures idx < |reports| ==> reports[idx].agencyName == name
    ensures forall k :: 0 <= k < idx ==> reports[k].agencyName != name
  {
    idx := 0;
    while idx < |reports| && reports[idx].agencyName != name
      invariant 0 <= idx <= |reports|
      invariant forall k :: 0 <= k < idx ==> reports[k].agencyName != name
    {
      idx := idx + 1;
    }
  }

  /** A new report for an agency's first order: `new DailyReport(orderDate)`
      with the order's agency, its own date and its contribution. */
  method NewReport(orderDate: DateTime, order: Order) returns (r: DailyReport)
    ensures fresh(r)
    ensures r.Value() == ReportValue(order.agencyNumber, order.agencyName, order.orderDate, OrderTally(order))
  {
    r := new DailyReport(orderDate);
    r.agencyName := order.agencyName;
    r.agencyNumber := order.agencyNumber;
    r.reportDate := order.orderDate;
    r.sumChildren := order.children;
    r.sumAdults := order.adults;
    r.sumOrders := 1;
    r.sumVouchers := if order.hasVoucher then 1 else 0;
    r.sumNewClients := if order.isNewClient then 1 else 0;
  }

  /** The in-place `+=` updates of an existing report. */
  method AddToReport(aReport: DailyReport, order: Order)
    modifies aReport
    ensures aReport.Value() == old(aReport.Value()).(tally := AddTally(old(aReport.Sums()), OrderTally(order)))
  {
    aReport.sumChildren := aReport.sumChildren + order.children;
    aReport.sumAdults := aReport.sumAdults + order.adults;
    aReport.sumOrders := aReport.sumOrders + 1;
    aReport.sumVouchers := aReport.sumVouchers + (if order.hasVoucher then 1 else 0);
    aReport.sumNewClients := aReport.sumNewClients + (if order.isNewClient then 1 else 0);
  }

  /** `CreateByDateReport`'s loop over the orders of one form. `orders[0]` is
      read first, so an empty list fails there; the caller checks that. Every
      report is new, they are distinct objects, and report i holds the fold's
      i-th value. */
  method CreateByDateReport(orders: seq<Order>) returns (reports: seq<DailyReport>)
    requires |orders| > 0
    ensures |reports| == |FoldReports(orders)|
    ensures forall i :: 0 <= i < |reports| ==> fresh(reports[i])
    ensures forall i, j :: 0 <= i < j < |reports| ==> reports[i] != reports[j]
    ensures forall i :: 0 <= i < |reports| ==> reports[i].Value() == FoldReports(orders)[i]
  {
    var orderDate := orders[0].orderDate;
    reports := [];
    ghost var values: seq<ReportValue> := [];
    for k := 0 to |orders|
      invariant values == FoldReports(orders[..k])
      invariant |reports| == |values|
      invariant forall i :: 0 <= i < |reports| ==> fresh(reports[i])
      invariant forall i, j :: 0 <= i < j < |reports| ==> reports[i] != reports[j]
      invariant forall i :: 0 <= i < |reports| ==> reports[i].Value() == values[i]
    {
      var order := orders[k];
      assert orders[..k + 1][..k] == orders[..k];
      var idx := FindReport(reports, order.agencyName);
      assert idx == IndexOfName(values, order.agencyName) by {
        var i := IndexOfName(values, order.agencyName);
        assert i < |values| ==> values[i].agencyName == reports[i].agencyName;
      }
      values := AddOrder(values, order);
      if idx == |reports| {
        var r := NewReport(orderDate, order);
        reports := reports + [r];
        continue;
      }
      AddToReport(reports[idx], order);
    }
    assert orders[..|orders|] == orders;
  }

  /** Report i of the fold is the report agency i should have. */
  predicate FoldMatches(orders: seq<Order>) {
    && |FoldReports(orders)| == |AgencyNames(orders)|
    && forall i :: 0 <= i < |AgencyNames(orders)| ==>
         |WithName(orders, AgencyNames(orders)[i])| > 0 &&
         FoldReports(orders)[i] == AgencyReport(orders, AgencyNames(orders)[i])
  }

  /** The fold builds exactly one report per agency, in order of first
      appearance, and each holds its agency's first order's number and date
      and the sums over all of that agency's orders. */
  lemma {:induction false} FoldReportsSpec(orders: seq<Order>)
    ensures FoldMatches(orders)
    decreases |orders|
  {
    if orders != [] {
      var prefix := orders[..|orders| - 1];
      var o := orders[|orders| - 1];
      assert orders == prefix + [o];
      FoldReportsSpec(prefix);
      if o.agencyName in AgencyNames(prefix) {
        FoldStepExisting(prefix, o);
      } else {
        FoldStepNew(prefix, o);
      }
    }
  }

  lemma Unsnoc(prefix: seq<Order>, o: Order)
    ensures FoldReports(prefix + [o]) == AddOrder(FoldReports(prefix), o)
    ensures AgencyNames(prefix + [o])
         == if o.agencyName in AgencyNames(prefix) then AgencyNames(prefix) else AgencyNames(prefix) + [o.agencyName]
    ensures forall name ::
      WithName(prefix + [o], name) == WithName(prefix, name) + (if o.agencyName == name then [o] else [])
  {
    assert (prefix + [o])[..|prefix|] == prefix;
  }

  /** Report i carries agency name i. */
  lemma NamesOfFold(orders: seq<Order>)
    requires FoldMatches(orders)
    ensures forall i :: 0 <= i < |AgencyNames(orders)| ==> FoldReports(orders)[i].agencyName == AgencyNames(orders)[i]
  {
  }

  lemma FoldStepNew(prefix: seq<Order>, o: Order)
    requires FoldMatches(prefix) && o.agencyName !in AgencyNames(prefix)
    ensures FoldMatches(prefix + [o])
  {
    var orders := prefix + [o];
    Unsnoc(prefix, o);
    NamesOfFold(prefix);
    var before := FoldReports(prefix);
    var names := AgencyNames(prefix);
    assert IndexOfName(before, o.agencyName) == |before|;
    WithNameAbsent(prefix, o.agencyName);
    TallyOfSnoc([], o);
    assert [] + [o] == [o];
    forall i | 0 <= i < |AgencyNames(orders)|
      ensures |WithName(orders, AgencyNames(orders)[i])| > 0
      ensures FoldReports(orders)[i] == AgencyReport(orders, AgencyNames(orders)[i])
    {
      if i < |names| {
        assert names[i] != o.agencyName;
        assert WithName(orders, names[i]) == WithName(prefix, names[i]);
      } else {
        assert WithName(orders, o.agencyName) == [o];
      }
    }
  }

  lemma FoldStepExisting(prefix: seq<Order>, o: Order)
    requires FoldMatches(prefix) && o.agencyName in AgencyNames(prefix)
    ensures FoldMatches(prefix + [o])
  {
    var orders := prefix + [o];
    Unsnoc(prefix, o);
    NamesOfFold(prefix);
    AgencyNamesSpec(prefix);
    var before := FoldReports(prefix);
    var names := AgencyNames(prefix);
    var idx := IndexOfName(before, o.agencyName);
    assert idx < |before|;
    TallyOfSnoc(WithName(prefix, o.agencyName), o);
    forall i | 0 <= i < |AgencyNames(orders)|
      ensures |WithName(orders, AgencyNames(orders)[i])| > 0
      ensures FoldReports(orders)[i] == AgencyReport(orders, AgencyNames(orders)[i])
    {
      if i == idx {
        assert WithName(orders, names[i]) == WithName(prefix, names[i]) + [o];
      } else {
        assert names[i] != o.agencyName;
        assert WithName(orders, names[i]) == WithName(prefix, names[i]);
      }
    }
  }

  /** An agency that does not occur among the orders has no orders. */
  lemma {:induction false} WithNameAbsent(orders: seq<Order>, name: string)
    requires name !in AgencyNames(orders)
    ensures WithName(orders, name) == []
    decreases |orders|
  {
    if orders != [] {
      WithNameAbsent(orders[..|orders| - 1], name);
    }
  }

  /** The names are distinct and are exactly the names of the orders. */
  lemma {:induction false} AgencyNamesSpec(orders: seq<Order>)
    ensures forall i, j :: 0 <= i < j < |AgencyNames(orders)| ==> AgencyNames(orders)[i] != AgencyNames(orders)[j]
    ensures forall name :: name in AgencyNames(orders) <==> exists o :: o in orders && o.agencyName == name
    decreases |orders|
  {
    if orders != [] {
      var prefix := orders[..|orders| - 1];
      AgencyNamesSpec(prefix);
      assert orders == prefix + [orders[|orders| - 1]];
    }
  }

  /** Sum of the `SumOrders` of a list of reports. */
  function TotalOrders(reports: seq<ReportValue>): int {
    if reports == [] then 0 else TotalOrders(reports[..|reports| - 1]) + reports[|reports| - 1].tally.orders
  }

  lemma {:induction false} TotalOrdersUpdate(reports: seq<ReportValue>, i: nat, v: ReportValue)
    requires i < |reports|
    ensures TotalOrders(reports[i := v]) == TotalOrders(reports) - reports[i].tally.orders + v.tally.orders
    decreases |reports|
  {
    var n := |reports| - 1;
    if i < n {
      assert reports[i := v][..n] == reports[..n][i := v];
      TotalOrdersUpdate(reports[..n], i, v);
    } else {
      assert reports[i := v][..n] == reports[..n];
    }
  }

  /** Every order is counted in exactly one report: the reports' `SumOrders`
      add up to the number of orders. */
  lemma {:induction false} FoldReportsCountsEveryOrder(orders: seq<Order>)
    ensures TotalOrders(FoldReports(orders)) == |orders|
    decreases |orders|
  {
    if orders != [] {
      var prefix := orders[..|orders| - 1];
      var o := orders[|orders| - 1];
      FoldReportsCountsEveryOrder(prefix);
      var before := FoldReports(prefix);
      var i := IndexOfName(before, o.agencyName);
      if i == |before| {
        var after := FoldReports(orders);
        assert after[..|after| - 1] == before;
      } else {
        TotalOrdersUpdate(before, i, before[i].(tally := AddTally(before[i].tally, OrderTally(o))));
      }
    }
  }

  /** The same facts about the objects `CreateByDateReport` returns: one per
      agency in first-appearance order, each summing its agency's orders, the
      derived `SumAdultsChildren` equal to that agency's adults plus children,
      and an order total equal to the number of orders. */
  lemma ByDateReportsSpec(orders: seq<Order>, reports: seq<ReportValue>)
    requires reports == FoldReports(orders)
    ensures |reports| == |AgencyNames(orders)|
    ensures forall i :: 0 <= i < |reports| ==>
      var mine := WithName(orders, AgencyNames(orders)[i]);
      && |mine| > 0
      && reports[i].agencyName == AgencyNames(orders)[i]
      && reports[i].agencyNumber == mine[0].agencyNumber
      && reports[i].tally == TallyOf(mine)
      && reports[i].tally.adults + reports[i].tally.children == SumAdults(mine) + SumChildren(mine)
    ensures TotalOrders(reports) == |orders|
  {
    FoldReportsSpec(orders);
    NamesOfFold(orders);
    FoldReportsCountsEveryOrder(orders);
  }
}
