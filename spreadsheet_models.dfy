/** Order.cs and Ordersheet.cs: the records extracted from one order form.
    `isCity` is part of the order although Order.cs does not declare it:
    ReportGenerator.cs assigns and reads `Order.IsCity`. */
module SpreadsheetModels {
  import opened Cells

  /** One household's order on one day. */
  datatype Order = Order(
    orderDate: DateTime,
    agencyNumber: int,
    agencyName: string,
    adults: int,
    children: int,
    hasVoucher: bool,
    isNewClient: bool,
    isCity: bool)

  /** One order form: its date, the two declared totals and the extracted orders. */
  datatype Ordersheet = Ordersheet(
    orderDate: DateTime,
    newClients: int,
    vouchers: int,
    orders: seq<Order>)
}
