/** DailyReport.cs: the accumulator for one (agency, date) cell of a report,
    and the sums of orders it accumulates. */
module DailyReports {
  import opened Cells
  import opened SpreadsheetModels

  /** The five additive sums of a report. */
  datatype Tally = Tally(orders: int, adults: int, children: int, vouchers: int, newClients: int)

  const NoOrders := Tally(0, 0, 0, 0, 0)

  function AddTally(a: Tally, b: Tally): Tally {
    Tally(a.orders + b.orders, a.adults + b.adults, a.children + b.children,
          a.vouchers + b.vouchers, a.newClients + b.newClients)
  }

  /** What one order contributes to a report. */
  function OrderTally(o: Order): Tally {
    Tally(1, o.adults, o.children, if o.hasVoucher then 1 else 0, if o.isNewClient then 1 else 0)
  }

  function SumAdults(os: seq<Order>): int {
    if os == [] then 0 else SumAdults(os[..|os| - 1]) + os[|os| - 1].adults
  }

  function SumChildren(os: seq<Order>): int {
    if os == [] then 0 else SumChildren(os[..|os| - 1]) + os[|os| - 1].children
  }

  function CountVouchers(os: seq<Order>): nat {
    if os == [] then 0 else CountVouchers(os[..|os| - 1]) + (if os[|os| - 1].hasVoucher then 1 else 0)
  }

  function CountNewClients(os: seq<Order>): nat {
    if os == [] then 0 else CountNewClients(os[..|os| - 1]) + (if os[|os| - 1].isNewClient then 1 else 0)
  }

  /** The report sums of a list of orders: how many there are, their adults and
      children, and how many carry a voucher or a new client. */
  function TallyOf(os: seq<Order>): Tally {
    Tally(|os|, SumAdults(os), SumChildren(os), CountVouchers(os), CountNewClients(os))
  }

  /** Appending one order adds exactly that order's contribution. */
  lemma TallyOfSnoc(os: seq<Order>, o: Order)
    ensures TallyOf(os + [o]) == AddTally(TallyOf(os), OrderTally(o))
  {
    assert (os + [o])[..|os|] == os;
  }

  /** The observable content of a report. */
  datatype ReportValue = ReportValue(agencyNumber: int, agencyName: string, reportDate: DateTime, tally: Tally)

  class DailyReport {
    var agencyNumber: int
    var agencyName: string
    var reportDate: DateTime
    var sumOrders: int
    var sumAdults: int
    var sumChildren: int
    var sumVouchers: int
    var sumNewClients: int

    /** `new DailyReport(date)`: the date is set and every sum starts at 0. The
        agency fields are unset (the source leaves them null and 0 and every
        caller assigns them). */
    constructor (date: DateTime)
      ensures reportDate == date
      ensures sumOrders == 0 && sumAdults == 0 && sumChildren == 0
      ensures sumVouchers == 0 && sumNewClients == 0
      ensures agencyNumber == 0 && agencyName == ""
    {
      reportDate := date;
      agencyNumber, agencyName := 0, "";
      sumOrders, sumAdults, sumChildren, sumVouchers, sumNewClients := 0, 0, 0, 0, 0;
    }

    /** The derived `SumAdultsChildren` property: computed from the two sums on
        every read, never stored. */
    function SumAdultsChildren(): int
      reads this
    {
      sumAdults + sumChildren
    }

    function Sums(): Tally
      reads this
    {
      Tally(sumOrders, sumAdults, sumChildren, sumVouchers, sumNewClients)
    }

    function Value(): ReportValue
      reads this
    {
      ReportValue(agencyNumber, agencyName, reportDate, Sums())
    }
  }
}
