/** `getOrderSummaryData`: the orders a report covers, newest execution date first, each cut down
    to the fields the report needs. */
module ReportRepository {
  import opened Wrappers
  import opened Records
  import Seqs
  import Sorting

  /** The amounts and currency of one charge line, as the report query selects them. */
  datatype ChargeAmounts = ChargeAmounts(amounts: Financials, currency: string)

  /** One order as the report query selects it. */
  datatype ReportOrder = ReportOrder(
    orderNumber: string, executionDate: Option<int>, customerName: string, charges: seq<ChargeAmounts>)

  /** The date condition: applied only when both bounds are given, and then inclusive at both
      ends; an order without an execution date never satisfies it. */
  predicate InDateRange(o: Order, startDate: Option<int>, endDate: Option<int>) {
    if startDate.Some? && endDate.Some? then
      o.executionDate.Some? && startDate.value <= o.executionDate.value <= endDate.value
    else
      true
  }

  /** The complete `where`: not soft-deleted, and within the date range. */
  function Reported(startDate: Option<int>, endDate: Option<int>): Order -> bool {
    o => LiveOrder(o) && InDateRange(o, startDate, endDate)
  }

  /** `orderBy: { executionDate: "desc" }`, with orders lacking a date placed first (the
      PostgreSQL default for a descending sort). */
  predicate LatestFirst(a: Order, b: Order) {
    match a.executionDate
    case None => true
    case Some(x) => b.executionDate.Some? && x >= b.executionDate.value
  }

  lemma LatestFirstIsTotal()
    ensures Sorting.TotalPreorder(LatestFirst)
  {
  }

  /** The stored orders the report covers, in report order. */
  function ReportedOrders(rows: seq<Order>, startDate: Option<int>, endDate: Option<int>): (r: seq<Order>)
    ensures forall o :: o in r <==> o in rows && LiveOrder(o) && InDateRange(o, startDate, endDate)
    ensures multiset(r) == multiset(Seqs.Filter(rows, Reported(startDate, endDate)))
    ensures Sorting.SortedBy(r, LatestFirst)
  {
    LatestFirstIsTotal();
    var kept := Seqs.Filter(rows, Reported(startDate, endDate));
    var r := Sorting.SortBy(kept, LatestFirst);
    assert forall o :: o in r <==> o in multiset(kept);
    r
  }

  /** The `select`: order number, execution date, the customer's name and, per charge line,
      the six amounts and the currency. */
  function Select(o: Order, customers: seq<Customer>): (r: ReportOrder)
    ensures r.orderNumber == o.orderNumber && r.executionDate == o.executionDate
    ensures r.customerName == CustomerNameOf(customers, o.customerId)
    ensures |r.charges| == |o.charges|
    ensures forall i :: 0 <= i < |r.charges| ==>
              r.charges[i] == ChargeAmounts(o.charges[i].amounts, o.charges[i].line.currency)
  {
    ReportOrder(
      o.orderNumber, o.executionDate, CustomerNameOf(customers, o.customerId),
      seq(|o.charges|, i requires 0 <= i < |o.charges| => ChargeAmounts(o.charges[i].amounts, o.charges[i].line.currency)))
  }

  /** `getOrderSummaryData(startDate, endDate)`. */
  function GetOrderSummaryData(rows: seq<Order>, customers: seq<Customer>, startDate: Option<int>, endDate: Option<int>)
    : (r: seq<ReportOrder>)
    ensures |r| == |ReportedOrders(rows, startDate, endDate)|
    ensures forall i :: 0 <= i < |r| ==> r[i] == Select(ReportedOrders(rows, startDate, endDate)[i], customers)
    ensures forall i, j :: 0 <= i < j < |r| && r[j].executionDate.None? ==> r[i].executionDate.None?
    ensures forall i, j :: 0 <= i < j < |r| && r[i].executionDate.Some? ==>
              r[j].executionDate.Some? && r[i].executionDate.value >= r[j].executionDate.value
  {
    var orders := ReportedOrders(rows, startDate, endDate);
    seq(|orders|, i requires 0 <= i < |orders| => Select(orders[i], customers))
  }

  /** Without both bounds, the report covers every non-deleted order. */
  lemma NoRangeReportsAllLive(rows: seq<Order>, startDate: Option<int>, endDate: Option<int>)
    requires startDate.None? || endDate.None?
    ensures forall o :: o in ReportedOrders(rows, startDate, endDate) <==> o in rows && LiveOrder(o)
  {
  }

  /** With both bounds, an order is reported exactly when it is live and its execution date lies
      between them, bounds included. */
  lemma RangeIsInclusive(rows: seq<Order>, startDate: int, endDate: int)
    ensures forall o :: o in ReportedOrders(rows, Some(startDate), Some(endDate)) <==>
              o in rows && LiveOrder(o) && o.executionDate.Some? &&
              startDate <= o.executionDate.value <= endDate
  {
  }
}
