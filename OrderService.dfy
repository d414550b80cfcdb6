/** The order service: zod validation of incoming orders, the per-line charge arithmetic, and the
    create / update / list / delete operations on the order table. */
module OrderService {
  import opened Wrappers
  import opened Records
  import opened Errors
  import opened OrderRepository
  import Text
  import Paging

  // ---------------------------------------------------------------------------------------------
  // Input and validation (`OrderDetailSchema`, `ContainerSchema`, `ChargeSchema`, `OrderSchema`)
  // ---------------------------------------------------------------------------------------------

  /** A charge line as submitted; `currency` may be left out. */
  datatype ChargeInput = ChargeInput(
    description: string, qty: real, saleRate: real, costRate: real,
    vatPercent: real, currency: Option<string>)

  /** An order as submitted. A date that is absent or the empty string is `None`; a present date
      has already been read as a timestamp. */
  datatype OrderInput = OrderInput(
    customerId: string, orderNumber: string, orderDate: int, executionDate: Option<int>,
    details: Option<seq<Detail>>, containers: Option<seq<Container>>, charges: Option<seq<ChargeInput>>)

  /** What `OrderSchema.parse` returns: the input with every charge's currency defaulted. */
  datatype ValidOrder = ValidOrder(
    customerId: string, orderNumber: string, orderDate: int, executionDate: Option<int>,
    details: Option<seq<Detail>>, containers: Option<seq<Container>>, charges: Option<seq<Charge>>)

  /** zod's message for a failed `.min(0)` on a number. */
  const MinZeroMessage := "Number must be greater than or equal to 0"

  const DefaultCurrency := "USD"

  predicate IsHexDigit(c: char) {
    '0' <= c <= '9' || 'a' <= c <= 'f' || 'A' <= c <= 'F'
  }

  /** zod's `uuid()`: five groups of 8, 4, 4, 4 and 12 hexadecimal digits joined by hyphens. */
  predicate IsUuid(s: string) {
    |s| == 36 &&
    forall i :: 0 <= i < 36 ==> if i == 8 || i == 13 || i == 18 || i == 23 then s[i] == '-' else IsHexDigit(s[i])
  }

  /** The issues `OrderDetailSchema` reports for one bill of lading at path `at`. */
  function DetailIssues(d: Detail, at: seq<PathPart>): seq<Issue> {
    (if |d.billNumber| < 1 then [Issue(at + [Key("billNumber")], "Bill number is required")] else [])
    + (if d.qty <= 0.0 then [Issue(at + [Key("qty")], "Quantity must be greater than 0")] else [])
  }

  /** The issues `ChargeSchema` reports for one charge line at path `at`. */
  function ChargeIssues(c: ChargeInput, at: seq<PathPart>): seq<Issue> {
    (if |c.description| < 1 then [Issue(at + [Key("description")], "Description is required")] else [])
    + (if c.qty < 0.0 then [Issue(at + [Key("qty")], MinZeroMessage)] else [])
    + (if c.saleRate < 0.0 then [Issue(at + [Key("saleRate")], MinZeroMessage)] else [])
    + (if c.costRate < 0.0 then [Issue(at + [Key("costRate")], MinZeroMessage)] else [])
    + (if c.vatPercent < 0.0 then [Issue(at + [Key("vatPercent")], MinZeroMessage)] else [])
  }

  /** Every issue of an order, in the order zod reports them (schema key order, then array order). */
  function OrderIssues(o: OrderInput): seq<Issue> {
    (if !IsUuid(o.customerId) then [Issue([Key("customerId")], "Invalid customer ID")] else [])
    + (if |o.orderNumber| < 1 then [Issue([Key("orderNumber")], "Order number is required")] else [])
    + (if o.details.Some? then ListIssues(o.details.value, "details", 0, DetailIssues) else [])
    + (if o.charges.Some? then ListIssues(o.charges.value, "charges", 0, ChargeIssues) else [])
  }

  /** The acceptance rules, stated field by field. Charge quantities may be zero; only a bill
      of lading's quantity must be positive. Containers carry no rules. */
  predicate ChargeAcceptable(c: ChargeInput) {
    c.description != "" && c.qty >= 0.0 && c.saleRate >= 0.0 && c.costRate >= 0.0 && c.vatPercent >= 0.0
  }

  predicate DetailAcceptable(d: Detail) {
    d.billNumber != "" && d.qty > 0.0
  }

  predicate OrderAcceptable(o: OrderInput) {
    && IsUuid(o.customerId)
    && o.orderNumber != ""
    && (o.details.Some? ==> forall d :: d in o.details.value ==> DetailAcceptable(d))
    && (o.charges.Some? ==> forall c :: c in o.charges.value ==> ChargeAcceptable(c))
  }

  /** `currency: z.string().default("USD")`. */
  function ParseCharge(c: ChargeInput): (r: Charge)
    ensures c.currency.None? ==> r.currency == DefaultCurrency
    ensures c.currency.Some? ==> r.currency == c.currency.value
    ensures r.description == c.description && r.qty == c.qty && r.saleRate == c.saleRate
    ensures r.costRate == c.costRate && r.vatPercent == c.vatPercent
  {
    Charge(c.description, c.qty, c.saleRate, c.costRate, c.vatPercent,
           if c.currency.Some? then c.currency.value else DefaultCurrency)
  }

  /** `OrderSchema.parse`: the validated order, or every issue found. */
  function ParseOrder(o: OrderInput): (r: Result<ValidOrder, Issues>)
    ensures r.Ok? <==> OrderAcceptable(o)
    ensures r.Err? ==> r.error == OrderIssues(o)
    ensures r.Ok? ==> r.value.customerId == o.customerId && r.value.orderNumber == o.orderNumber &&
                      r.value.orderDate == o.orderDate && r.value.executionDate == o.executionDate &&
                      r.value.details == o.details && r.value.containers == o.containers
    ensures r.Ok? ==> r.value.charges.Some? == o.charges.Some?
    ensures r.Ok? && o.charges.Some? ==>
              |r.value.charges.value| == |o.charges.value| &&
              forall i :: 0 <= i < |o.charges.value| ==> r.value.charges.value[i] == ParseCharge(o.charges.value[i])
  {
    OrderIssuesEmptyIff(o);
    var issues := OrderIssues(o);
    if issues == [] then
      var charges := if o.charges.Some?
        then Some(seq(|o.charges.value|, i requires 0 <= i < |o.charges.value| => ParseCharge(o.charges.value[i])))
        else None;
      Ok(ValidOrder(o.customerId, o.orderNumber, o.orderDate, o.executionDate, o.details, o.containers, charges))
    else
      Err(issues)
  }

  /** zod reports no issue exactly when the order meets the acceptance rules. */
  lemma OrderIssuesEmptyIff(o: OrderInput)
    ensures OrderIssues(o) == [] <==> OrderAcceptable(o)
  {
    if o.details.Some? {
      ListIssuesEmptyIff(o.details.value, "details", DetailIssues, DetailAcceptable);
    }
    if o.charges.Some? {
      ListIssuesEmptyIff(o.charges.value, "charges", ChargeIssues, ChargeAcceptable);
    }
  }

  // ---------------------------------------------------------------------------------------------
  // Charge arithmetic (`calculateFinancials`)
  // ---------------------------------------------------------------------------------------------

  /** The six amounts of a charge line: net sale and cost, VAT on each, and the gross totals. */
  function CalculateFinancials(c: Charge): (f: Financials)
    ensures f.totalSale == c.qty * c.saleRate * (1.0 + c.vatPercent / 100.0)
    ensures f.totalCost == c.qty * c.costRate * (1.0 + c.vatPercent / 100.0)
    ensures f.totalSale - f.totalCost == c.qty * (c.saleRate - c.costRate) * (1.0 + c.vatPercent / 100.0)
  {
    var saleAmount := c.qty * c.saleRate;
    var costAmount := c.qty * c.costRate;
    var vatSale := (saleAmount * c.vatPercent) / 100.0;
    var vatCost := (costAmount * c.vatPercent) / 100.0;
    Financials(saleAmount, costAmount, vatSale, vatCost, saleAmount + vatSale, costAmount + vatCost)
  }

  /** On a line that passed validation every amount is non-negative, and VAT never lowers a total. */
  lemma FinancialsNonNegative(c: Charge)
    requires c.qty >= 0.0 && c.saleRate >= 0.0 && c.costRate >= 0.0 && c.vatPercent >= 0.0
    ensures var f := CalculateFinancials(c);
      && f.saleAmount >= 0.0 && f.costAmount >= 0.0 && f.vatSale >= 0.0 && f.vatCost >= 0.0
      && f.totalSale >= f.saleAmount && f.totalCost >= f.costAmount
  {
    var f := CalculateFinancials(c);
    assert f.saleAmount >= 0.0 by { ProductNonNegative(c.qty, c.saleRate); }
    assert f.costAmount >= 0.0 by { ProductNonNegative(c.qty, c.costRate); }
    ProductNonNegative(f.saleAmount, c.vatPercent);
    ProductNonNegative(f.costAmount, c.vatPercent);
  }

  lemma ProductNonNegative(a: real, b: real)
    requires a >= 0.0 && b >= 0.0
    ensures a * b >= 0.0
  {
  }

  /** Two units at 100 sale and 80 cost with 5% VAT. */
  lemma FinancialsExample()
    ensures CalculateFinancials(Charge("Freight", 2.0, 100.0, 80.0, 5.0, "USD"))
         == Financials(200.0, 160.0, 10.0, 8.0, 210.0, 168.0)
  {
  }

  /** The stored charge rows: one per line, in line order, the raw fields with their amounts. */
  function ChargeRows(lines: seq<Charge>): (r: seq<ChargeRow>)
    ensures |r| == |lines|
    ensures forall i :: 0 <= i < |r| ==> r[i].line == lines[i] && r[i].amounts == CalculateFinancials(lines[i])
  {
    seq(|lines|, i requires 0 <= i < |lines| => ChargeRow(lines[i], CalculateFinancials(lines[i])))
  }

  // ---------------------------------------------------------------------------------------------
  // Create
  // ---------------------------------------------------------------------------------------------

  /** The row data `createOrder` builds from a validated order; an absent list creates no rows. */
  function CreateData(v: ValidOrder): (d: OrderCreate)
    ensures d.orderNumber == v.orderNumber && d.orderDate == v.orderDate && d.customerId == v.customerId
    ensures d.executionDate == v.executionDate
    ensures d.details == (if v.details.Some? then v.details.value else [])
    ensures d.containers == (if v.containers.Some? then v.containers.value else [])
    ensures v.charges.None? ==> d.charges == []
    ensures v.charges.Some? ==> |d.charges| == |v.charges.value|
    ensures v.charges.Some? ==> forall i :: 0 <= i < |d.charges| ==>
              d.charges[i] == ChargeRow(v.charges.value[i], CalculateFinancials(v.charges.value[i]))
  {
    OrderCreate(
      v.orderNumber, v.orderDate, v.executionDate, v.customerId,
      if v.details.Some? then v.details.value else [],
      if v.containers.Some? then v.containers.value else [],
      ChargeRows(if v.charges.Some? then v.charges.value else []))
  }

  /** `createOrder`: validate, then insert. Nothing is stored when validation fails. */
  method CreateOrder(table: OrderTable, input: OrderInput, id: string, now: int) returns (r: Result<Order, Failure>)
    requires table.Valid() && FindOrder(table.rows, id).None?
    modifies table
    ensures table.Valid()
    ensures ParseOrder(input).Err? ==>
              r == Err(Invalid(ParseOrder(input).error)) && table.rows == old(table.rows)
    ensures ParseOrder(input).Ok? ==>
              r == Ok(NewOrder(CreateData(ParseOrder(input).value), id, now)) &&
              table.rows == old(table.rows) + [r.value]
  {
    match ParseOrder(input)
    case Err(issues) =>
      r := Err(Invalid(issues));
    case Ok(validated) =>
      var o := table.CreateOrder(CreateData(validated), id, now);
      r := Ok(o);
  }

  /** A stored order carries the submitted number, dates, customer and lists (an absent list
      stored empty), and one charge row per submitted charge, in order, with the submitted fields
      (currency defaulted) and their amounts; a missing execution date is stored as null. */
  lemma CreatedChargesFollowInput(input: OrderInput, id: string, now: int)
    requires ParseOrder(input).Ok?
    ensures var o := NewOrder(CreateData(ParseOrder(input).value), id, now);
      && o.orderNumber == input.orderNumber && o.orderDate == input.orderDate
      && o.customerId == input.customerId && o.executionDate == input.executionDate
      && o.details == (if input.details.Some? then input.details.value else [])
      && o.containers == (if input.containers.Some? then input.containers.value else [])
      && |o.charges| == (if input.charges.Some? then |input.charges.value| else 0)
      && forall i :: 0 <= i < |o.charges| ==>
           o.charges[i].line == ParseCharge(input.charges.value[i]) &&
           o.charges[i].amounts == CalculateFinancials(ParseCharge(input.charges.value[i]))
  {
  }

  // ---------------------------------------------------------------------------------------------
  // Update (no validation)
  // ---------------------------------------------------------------------------------------------

  /** A partial order as sent to `updateOrder`: any field may be missing. Strings are kept as
      sent, so an empty string can be told apart from a missing field. */
  datatype OrderPatch = OrderPatch(
    orderNumber: Option<string>, orderDate: Option<int>, executionDate: Option<int>,
    customerId: Option<string>,
    details: Option<seq<Detail>>, containers: Option<seq<Container>>, charges: Option<seq<Charge>>)

  /** The update `updateOrder` builds: scalars only when truthy, lists only when present, with
      the charge amounts recomputed. */
  function BuildOrderUpdate(p: OrderPatch): (u: OrderUpdate)
    ensures u.orderNumber.Some? <==> Text.Truthy(p.orderNumber)
    ensures u.customerId.Some? <==> Text.Truthy(p.customerId)
    ensures u.charges.Some? <==> p.charges.Some?
  {
    OrderUpdate(
      if Text.Truthy(p.orderNumber) then p.orderNumber else None,
      p.orderDate, p.executionDate,
      if Text.Truthy(p.customerId) then p.customerId else None,
      p.details, p.containers,
      if p.charges.Some? then Some(ChargeRows(p.charges.value)) else None)
  }

  /** The stored order after `updateOrder(id, p)`. */
  function PatchOrder(o: Order, p: OrderPatch): (r: Order)
    ensures r.id == o.id && r.createdAt == o.createdAt && r.deletedAt == o.deletedAt
    ensures r.orderNumber == (if Text.Truthy(p.orderNumber) then p.orderNumber.value else o.orderNumber)
    ensures r.customerId == (if Text.Truthy(p.customerId) then p.customerId.value else o.customerId)
    ensures r.orderDate == (if p.orderDate.Some? then p.orderDate.value else o.orderDate)
    ensures r.executionDate == (if p.executionDate.Some? then p.executionDate else o.executionDate)
    ensures r.details == (if p.details.Some? then p.details.value else o.details)
    ensures r.containers == (if p.containers.Some? then p.containers.value else o.containers)
    ensures p.charges.None? ==> r.charges == o.charges
    ensures p.charges.Some? ==> r.charges == ChargeRows(p.charges.value)
  {
    ApplyOrderUpdate(o, BuildOrderUpdate(p))
  }

  /** An update that supplies no field leaves the order as it was; an empty order number or
      customer id counts as not supplied. */
  lemma EmptyPatchChangesNothing(o: Order, number: Option<string>, customer: Option<string>)
    requires !Text.Truthy(number) && !Text.Truthy(customer)
    ensures PatchOrder(o, OrderPatch(number, None, None, customer, None, None, None)) == o
  {
  }

  /** `updateOrder`: rewrite the order with that id, without validating the patch. */
  method UpdateOrder(table: OrderTable, id: string, p: OrderPatch) returns (r: Result<Order, Failure>)
    requires table.Valid()
    modifies table
    ensures table.Valid()
    ensures FindOrder(old(table.rows), id).None? ==>
              r == Err(RecordNotFound()) && table.rows == old(table.rows)
    ensures FindOrder(old(table.rows), id).Some? ==>
              var k := FindOrder(old(table.rows), id).value;
              r == Ok(PatchOrder(old(table.rows)[k], p)) && table.rows == old(table.rows)[k := r.value]
  {
    r := table.UpdateOrder(id, BuildOrderUpdate(p));
  }

  /** `deleteOrder`: a soft delete. */
  method DeleteOrder(table: OrderTable, id: string, now: int) returns (r: Result<Order, Failure>)
    requires table.Valid()
    modifies table
    ensures table.Valid()
    ensures FindOrder(old(table.rows), id).None? ==>
              r == Err(RecordNotFound()) && table.rows == old(table.rows)
    ensures FindOrder(old(table.rows), id).Some? ==>
              var k := FindOrder(old(table.rows), id).value;
              table.rows == MarkDeleted(old(table.rows), k, now) && r == Ok(table.rows[k])
  {
    r := table.SoftDeleteOrder(id, now);
  }

  // ---------------------------------------------------------------------------------------------
  // List with search
  // ---------------------------------------------------------------------------------------------

  /** The `OR` of `contains ... mode: "insensitive"` on the order number and the customer name. */
  predicate MatchesSearch(o: Order, customers: seq<Customer>, term: string) {
    || Text.Contains(Text.Lower(o.orderNumber), Text.Lower(term))
    || Text.Contains(Text.Lower(CustomerNameOf(customers, o.customerId)), Text.Lower(term))
  }

  /** The `where` `listOrders` builds: no condition for a missing or empty search term. */
  function SearchWhere(customers: seq<Customer>, search: Option<string>): (w: Order -> bool)
    ensures forall o :: w(o) <==> !Text.Truthy(search) || MatchesSearch(o, customers, search.value)
  {
    if Text.Truthy(search) then o => MatchesSearch(o, customers, search.value) else o => true
  }

  /** `listOrders(page, pageSize, search)`: the requested page of non-deleted orders matching the
      search, newest first, and how many match in all. */
  function ListOrders(rows: seq<Order>, customers: seq<Customer>, page: int, pageSize: int, search: Option<string>)
    : (r: (seq<Order>, nat))
    requires page >= 1 && pageSize >= 1
    ensures |r.0| <= pageSize
    ensures forall o :: o in r.0 ==>
              o in rows && LiveOrder(o) && (!Text.Truthy(search) || MatchesSearch(o, customers, search.value))
    ensures r.1 == |Matching(rows, SearchWhere(customers, search))|
    ensures |r.0| == Paging.PageLength(r.1, Paging.Skip(page, pageSize), pageSize)
    ensures forall k :: 0 <= k < |r.0| ==>
              r.0[k] == NewestMatching(rows, SearchWhere(customers, search))[Paging.Skip(page, pageSize) + k]
  {
    var where := SearchWhere(customers, search);
    OrderRepository.ListOrders(rows, Paging.Skip(page, pageSize), pageSize, where)
  }

  /** Without a search term every non-deleted order is counted. */
  lemma NoSearchCountsAllLive(rows: seq<Order>, customers: seq<Customer>, search: Option<string>)
    requires !Text.Truthy(search)
    ensures forall o :: o in Matching(rows, SearchWhere(customers, search)) <==> o in rows && LiveOrder(o)
  {
  }
}
