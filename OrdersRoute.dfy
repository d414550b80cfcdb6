/** GET and POST /api/orders: a clamped, optionally searched page of orders, and order
    creation with the mapping of its failures onto HTTP status codes. */
module OrdersRoute {
  import opened Wrappers
  import opened Records
  import opened Errors
  import opened OrderRepository
  import opened OrderService
  import Text
  import Paging

  /** GET: 401 without a session; otherwise the page the service lists for the clamped
      page and size. `search` is the query parameter, absent when the query has none. */
  function Get(signedIn: bool, rows: seq<Order>, customers: seq<Customer>,
               page: Option<int>, pageSize: Option<int>, search: Option<string>)
    : (r: Reply<Listing<Order>>)
    ensures !signedIn ==> r == Unauthorized()
    ensures signedIn ==> r.status == 200 && r.body.Data?
    ensures signedIn ==> |r.body.value.items| <= Paging.ClampPageSize(pageSize) <= Paging.MaxPageSize
    ensures signedIn ==> r.body.value.total == |Matching(rows, SearchWhere(customers, search))|
    ensures signedIn ==> forall o :: o in r.body.value.items ==>
              o in rows && LiveOrder(o) && (!Text.Truthy(search) || MatchesSearch(o, customers, search.value))
    ensures signedIn ==>
              var skip := Paging.Skip(Paging.ClampPage(page), Paging.ClampPageSize(pageSize));
              && |r.body.value.items| == Paging.PageLength(r.body.value.total, skip, Paging.ClampPageSize(pageSize))
              && forall k :: 0 <= k < |r.body.value.items| ==>
                   r.body.value.items[k] == NewestMatching(rows, SearchWhere(customers, search))[skip + k]
  {
    if !signedIn then Unauthorized()
    else
      var listed := OrderService.ListOrders(rows, customers, Paging.ClampPage(page), Paging.ClampPageSize(pageSize), search);
      Reply(200, Data(Listing(listed.0, listed.1)))
  }

  /** The `catch` of POST: a validation failure is a 400 carrying every issue; anything
      else, an unparsable body included, is a 500. */
  function CreateFailureReply(f: Failure): (r: Reply<Order>)
    ensures f.Invalid? <==> r.status == 400
    ensures f.Invalid? ==> r.body == ErrorDetails("Validation Error", f.issues)
    ensures f.Thrown? ==> r == Reply(500, Error("Internal Server Error"))
  {
    match f
    case Invalid(issues) => Reply(400, ErrorDetails("Validation Error", issues))
    case Thrown(_, _) => Reply(500, Error("Internal Server Error"))
  }

  /** POST. `body` is None when the request body is not JSON. */
  method Post(table: OrderTable, signedIn: bool, body: Option<OrderInput>, id: string, now: int)
    returns (reply: Reply<Order>)
    requires table.Valid() && FindOrder(table.rows, id).None?
    modifies table
    ensures table.Valid()
    ensures !signedIn ==> reply == Unauthorized() && table.rows == old(table.rows)
    ensures signedIn && body.None? ==> reply == Reply(500, Error("Internal Server Error")) && table.rows == old(table.rows)
    ensures signedIn && body.Some? && ParseOrder(body.value).Err? ==>
              reply == Reply(400, ErrorDetails("Validation Error", ParseOrder(body.value).error)) &&
              table.rows == old(table.rows)
    ensures signedIn && body.Some? && ParseOrder(body.value).Ok? ==>
              var created := NewOrder(CreateData(ParseOrder(body.value).value), id, now);
              reply == Reply(201, Data(created)) && table.rows == old(table.rows) + [created]
  {
    if !signedIn {
      return Unauthorized();
    }
    if body.None? {
      return CreateFailureReply(Thrown(None, "Unexpected end of JSON input"));
    }
    var r := CreateOrder(table, body.value, id, now);
    match r
    case Ok(order) =>
      reply := Reply(201, Data(order));
    case Err(failure) =>
      reply := CreateFailureReply(failure);
  }
}
