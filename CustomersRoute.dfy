/** GET and POST /api/customers: a page of non-deleted customers by code, and customer
    creation with the mapping of its failures onto HTTP status codes. */
module CustomersRoute {
  import opened Wrappers
  import opened Records
  import opened Errors
  import opened CustomerRepository
  import opened CustomerService
  import Seqs
  import Sorting
  import Text
  import Paging

  /** The columns the list selects. */
  datatype CustomerSummary = CustomerSummary(
    id: string, customerCode: string, customerName: string,
    telephone: Option<string>, email: Option<string>, country: Option<string>,
    city: Option<string>, state: Option<string>, salesPerson: Option<string>, createdAt: int)

  function SummaryOf(c: Customer): CustomerSummary {
    CustomerSummary(c.id, c.customerCode, c.customerName, c.telephone, c.email, c.country,
                    c.city, c.state, c.salesPerson, c.createdAt)
  }

  predicate CodeAscending(a: Customer, b: Customer) {
    Text.LexLe(a.customerCode, b.customerCode)
  }

  lemma CodeAscendingIsTotal()
    ensures Sorting.TotalPreorder(CodeAscending)
  {
    forall a: Customer, b: Customer ensures CodeAscending(a, b) || CodeAscending(b, a) {
      Text.LexLeTotal(a.customerCode, b.customerCode);
    }
    forall a: Customer, b: Customer, c: Customer | CodeAscending(a, b) && CodeAscending(b, c)
      ensures CodeAscending(a, c)
    {
      Text.LexLeTransitive(a.customerCode, b.customerCode, c.customerCode);
    }
  }

  /** The non-deleted customers, by code. */
  function CustomersByCode(rows: seq<Customer>): (r: seq<Customer>)
    ensures |r| == |Seqs.Filter(rows, LiveCustomer)|
    ensures forall c :: c in r <==> c in rows && LiveCustomer(c)
    ensures multiset(r) == multiset(Seqs.Filter(rows, LiveCustomer))
    ensures Sorting.SortedBy(r, CodeAscending)
  {
    CodeAscendingIsTotal();
    var live := Seqs.Filter(rows, LiveCustomer);
    var r := Sorting.SortBy(live, CodeAscending);
    assert forall c :: c in r <==> c in multiset(live);
    r
  }

  /** The `findMany` and `count` pair for one page. */
  function ListCustomers(rows: seq<Customer>, page: int, pageSize: int): (r: Listing<CustomerSummary>)
    requires page >= 1 && pageSize >= 1
    ensures r.total == |Seqs.Filter(rows, LiveCustomer)|
    ensures |r.items| <= pageSize
    ensures |r.items| == Paging.PageLength(r.total, Paging.Skip(page, pageSize), pageSize)
    ensures forall k :: 0 <= k < |r.items| ==>
              && Paging.Skip(page, pageSize) + k < |CustomersByCode(rows)|
              && r.items[k] == SummaryOf(CustomersByCode(rows)[Paging.Skip(page, pageSize) + k])
    ensures forall i, j :: 0 <= i < j < |r.items| ==> Text.LexLe(r.items[i].customerCode, r.items[j].customerCode)
  {
    var skip := Paging.Skip(page, pageSize);
    var sorted := CustomersByCode(rows);
    var items := SummaryPage(sorted, skip, pageSize);
    PageInCodeOrder(rows, skip, pageSize);
    assert |sorted| == |Seqs.Filter(rows, LiveCustomer)|;
    assert forall k :: 0 <= k < |items| ==> skip + k < |sorted| && items[k] == SummaryOf(sorted[skip + k]);
    Listing(items, |Seqs.Filter(rows, LiveCustomer)|)
  }

  /** The selected columns of the customers `skip`/`take` return from `sorted`. */
  function SummaryPage(sorted: seq<Customer>, skip: nat, take: nat): (r: seq<CustomerSummary>)
    ensures |r| == Paging.PageLength(|sorted|, skip, take)
    ensures forall k :: 0 <= k < |r| ==> skip + k < |sorted| && r[k] == SummaryOf(sorted[skip + k])
  {
    var window := Seqs.Page(sorted, skip, take);
    var items := Summaries(window);
    assert forall k :: 0 <= k < |items| ==> items[k] == SummaryOf(window[k]);
    items
  }

  /** The selected columns of each customer, in order. */
  function Summaries(cs: seq<Customer>): (r: seq<CustomerSummary>)
    ensures |r| == |cs|
    ensures forall k :: 0 <= k < |r| ==> r[k] == SummaryOf(cs[k])
  {
    seq(|cs|, k requires 0 <= k < |cs| => SummaryOf(cs[k]))
  }

  /** A run of consecutive customers taken from the by-code list is itself in code order. */
  lemma PageInCodeOrder(rows: seq<Customer>, skip: nat, take: nat)
    ensures var items := SummaryPage(CustomersByCode(rows), skip, take);
      forall i, j :: 0 <= i < j < |items| ==> Text.LexLe(items[i].customerCode, items[j].customerCode)
  {
    var sorted := CustomersByCode(rows);
    var items := SummaryPage(sorted, skip, take);
    forall i, j | 0 <= i < j < |items|
      ensures Text.LexLe(items[i].customerCode, items[j].customerCode)
    {
      var x := items[i];
      var y := items[j];
      assert x == SummaryOf(sorted[skip + i]) && y == SummaryOf(sorted[skip + j]);
      assert CodeAscending(sorted[skip + i], sorted[skip + j]);
    }
  }

  /** GET: 401 without a session; otherwise the clamped page. */
  function Get(signedIn: bool, rows: seq<Customer>, page: Option<int>, pageSize: Option<int>)
    : (r: Reply<Listing<CustomerSummary>>)
    ensures !signedIn ==> r == Unauthorized()
    ensures signedIn ==> r.status == 200 && r.body.Data?
    ensures signedIn ==> |r.body.value.items| <= Paging.ClampPageSize(pageSize) <= Paging.MaxPageSize
    ensures signedIn ==> r.body.value.total == |Seqs.Filter(rows, LiveCustomer)|
    ensures signedIn ==> |r.body.value.items| == Paging.PageLength(r.body.value.total,
              Paging.Skip(Paging.ClampPage(page), Paging.ClampPageSize(pageSize)), Paging.ClampPageSize(pageSize))
    ensures signedIn ==> forall k :: 0 <= k < |r.body.value.items| ==>
              var skip := Paging.Skip(Paging.ClampPage(page), Paging.ClampPageSize(pageSize));
              skip + k < |CustomersByCode(rows)| && r.body.value.items[k] == SummaryOf(CustomersByCode(rows)[skip + k])
  {
    if !signedIn then Unauthorized()
    else
      var p := Paging.ClampPage(page);
      var size := Paging.ClampPageSize(pageSize);
      var listing := ListCustomers(rows, p, size);
      var skip := Paging.Skip(p, size);
      assert |listing.items| <= size && listing.total == |Seqs.Filter(rows, LiveCustomer)|;
      assert |listing.items| == Paging.PageLength(listing.total, skip, size);
      assert forall k :: 0 <= k < |listing.items| ==>
        skip + k < |CustomersByCode(rows)| && listing.items[k] == SummaryOf(CustomersByCode(rows)[skip + k]);
      Reply(200, Data(listing))
  }

  /** The `catch` of POST, its tests taken in order. */
  function CreateFailureReply(f: Failure): (r: Reply<Customer>)
    ensures f.Invalid? ==> r == Reply(400, Error(f.issues[0].message))
    ensures f.Thrown? && f.code == Some("P2002") ==> r == Reply(400, Error("Customer code already exists"))
    ensures f.Thrown? && f.code != Some("P2002") && Text.Contains(f.message, "Email verification") ==>
              r == Reply(400, Error(f.message))
    ensures f.Thrown? && f.code != Some("P2002") && !Text.Contains(f.message, "Email verification") ==>
              r == Reply(500, Error("Failed to create customer"))
  {
    match f
    case Invalid(issues) => Reply(400, Error(issues[0].message))
    case Thrown(code, message) =>
      if code == Some("P2002") then Reply(400, Error("Customer code already exists"))
      else if Text.Contains(message, "Email verification") then Reply(400, Error(message))
      else Reply(500, Error("Failed to create customer"))
  }

  /** The gate's refusal is a client error carrying the gate's own message. */
  lemma GateRefusalIsBadRequest()
    ensures CreateFailureReply(Thrown(None, CreateGateMessage)) == Reply(400, Error(CreateGateMessage))
  {
    assert Text.OccursAt(CreateGateMessage, "Email verification", 0) by {
      assert CreateGateMessage[0..18] == "Email verification";
    }
  }

  /** POST. `body` is None when the request body is not JSON. */
  method Post(
    table: CustomerTable, verifications: map<string, EmailVerification>, signedIn: bool,
    body: Option<CustomerInput>, isEmail: string -> bool, id: string, now: int)
    returns (reply: Reply<Customer>)
    requires table.Valid() && FindCustomer(table.rows, id).None?
    modifies table
    ensures table.Valid()
    ensures !signedIn ==> reply == Unauthorized() && table.rows == old(table.rows)
    ensures signedIn && body.None? ==> reply == Reply(400, Error("Invalid JSON")) && table.rows == old(table.rows)
    ensures signedIn && body.Some? && !CustomerAcceptable(body.value, isEmail) ==>
              CustomerIssues(body.value, isEmail) != [] &&
              reply == Reply(400, Error(CustomerIssues(body.value, isEmail)[0].message)) &&
              table.rows == old(table.rows)
    ensures signedIn && body.Some? && CustomerAcceptable(body.value, isEmail) &&
            CreateBlocked(body.value.email, verifications) ==>
              reply == Reply(400, Error(CreateGateMessage)) && table.rows == old(table.rows)
    ensures signedIn && body.Some? && CustomerAcceptable(body.value, isEmail) &&
            !CreateBlocked(body.value.email, verifications) ==>
              reply == Reply(200, Data(NewCustomer(CreateData(body.value), id, now))) &&
              table.rows == old(table.rows) + [NewCustomer(CreateData(body.value), id, now)]
  {
    if !signedIn {
      return Unauthorized();
    }
    if body.None? {
      return Reply(400, Error("Invalid JSON"));
    }
    var input := body.value;
    var r := CreateCustomer(table, verifications, input, isEmail, id, now);
    if r.Ok? {
      return Reply(200, Data(r.value));
    }
    var failure := r.error;
    if !CustomerAcceptable(input, isEmail) {
      assert failure == Invalid(CustomerIssues(input, isEmail));
    } else {
      assert failure == Thrown(None, CreateGateMessage);
      GateRefusalIsBadRequest();
    }
    reply := CreateFailureReply(failure);
  }
}
