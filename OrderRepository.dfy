/** The `order` table as the repository layer sees it: creation, update by id, soft delete, lookup
    by id, and the two list queries (a paged list newest first, and the report list ordered by
    order number). */
module OrderRepository {
  import opened Wrappers
  import opened Records
  import opened Errors
  import Seqs
  import Sorting
  import Text

  /** What `createOrder` hands to Prisma: the scalar fields, the customer to connect and the
      nested rows to create. */
  datatype OrderCreate = OrderCreate(
    orderNumber: string, orderDate: int, executionDate: Option<int>, customerId: string,
    details: seq<Detail>, containers: seq<Container>, charges: seq<ChargeRow>)

  /** What `updateOrder` hands to Prisma: a field is written only when present; a nested list,
      when present, replaces the stored one (`deleteMany` then `create`). */
  datatype OrderUpdate = OrderUpdate(
    orderNumber: Option<string>, orderDate: Option<int>, executionDate: Option<int>,
    customerId: Option<string>,
    details: Option<seq<Detail>>, containers: Option<seq<Container>>, charges: Option<seq<ChargeRow>>)

  /** The row `create` inserts; the database supplies the id and `createdAt`. */
  function NewOrder(data: OrderCreate, id: string, now: int): (o: Order)
    ensures o.id == id && o.createdAt == now && LiveOrder(o)
  {
    Order(id, data.orderNumber, data.orderDate, data.executionDate, data.customerId,
          data.details, data.containers, data.charges, now, None)
  }

  /** The row after an update; the id, creation time and deletion mark are never touched. */
  function ApplyOrderUpdate(o: Order, u: OrderUpdate): (r: Order)
    ensures r.id == o.id && r.createdAt == o.createdAt && r.deletedAt == o.deletedAt
    ensures u == OrderUpdate(None, None, None, None, None, None, None) ==> r == o
  {
    o.(orderNumber := if u.orderNumber.Some? then u.orderNumber.value else o.orderNumber,
       orderDate := if u.orderDate.Some? then u.orderDate.value else o.orderDate,
       executionDate := if u.executionDate.Some? then u.executionDate else o.executionDate,
       customerId := if u.customerId.Some? then u.customerId.value else o.customerId,
       details := if u.details.Some? then u.details.value else o.details,
       containers := if u.containers.Some? then u.containers.value else o.containers,
       charges := if u.charges.Some? then u.charges.value else o.charges)
  }

  /** The primary key: no two rows share an id. */
  predicate IdsUnique(rows: seq<Order>) {
    forall i, j :: 0 <= i < j < |rows| ==> rows[i].id != rows[j].id
  }

  /** The position of the row with the given id. */
  function FindOrder(rows: seq<Order>, id: string): (r: Option<nat>)
    ensures r.Some? ==> r.value < |rows| && rows[r.value].id == id
    ensures r.None? <==> forall i :: 0 <= i < |rows| ==> rows[i].id != id
  {
    Seqs.IndexWhere(rows, (o: Order) => o.id == id)
  }

  /** With unique ids, the row found for an id is the only row carrying it. */
  lemma FindOrderUnique(rows: seq<Order>, k: nat)
    requires IdsUnique(rows) && k < |rows|
    ensures FindOrder(rows, rows[k].id) == Some(k)
  {
    assert FindOrder(rows, rows[k].id).Some?;
  }

  /** `getOrderById`: the row with that id, whether or not it is soft-deleted. */
  function GetOrderById(rows: seq<Order>, id: string): (r: Option<Order>)
    ensures r.Some? <==> exists i :: 0 <= i < |rows| && rows[i].id == id
    ensures r.Some? ==> r.value in rows && r.value.id == id
  {
    match FindOrder(rows, id)
    case None => None
    case Some(k) => Some(rows[k])
  }

  /** The rows a list query may return: not soft-deleted, and matching the caller's `where`. */
  function Listed(where: Order -> bool): Order -> bool {
    o => LiveOrder(o) && where(o)
  }

  /** The non-deleted rows matching `where`, in table order. */
  function Matching(rows: seq<Order>, where: Order -> bool): (r: seq<Order>)
    ensures forall o :: o in r <==> o in rows && LiveOrder(o) && where(o)
  {
    Seqs.Filter(rows, Listed(where))
  }

  /** `orderBy: { createdAt: "desc" }`. */
  predicate NewestFirst(a: Order, b: Order) {
    a.createdAt >= b.createdAt
  }

  lemma NewestFirstIsTotal()
    ensures Sorting.TotalPreorder(NewestFirst)
  {
  }

  /** The matching rows, newest first. */
  function NewestMatching(rows: seq<Order>, where: Order -> bool): (r: seq<Order>)
    ensures Sorting.SortedBy(r, NewestFirst)
    ensures multiset(r) == multiset(Matching(rows, where))
    ensures |r| == |Matching(rows, where)|
    ensures forall o :: o in r <==> o in rows && LiveOrder(o) && where(o)
  {
    NewestFirstIsTotal();
    var r := Sorting.SortBy(Matching(rows, where), NewestFirst);
    assert forall o :: o in r <==> o in multiset(Matching(rows, where));
    r
  }

  /** `listOrders`: one page of the matching rows, newest first, and the number of matching
      rows regardless of the page. */
  function ListOrders(rows: seq<Order>, skip: nat, take: nat, where: Order -> bool): (r: (seq<Order>, nat))
    ensures r.1 == |Matching(rows, where)|
    ensures |r.0| <= take
    ensures |r.0| == if skip >= r.1 then 0 else if r.1 - skip < take then r.1 - skip else take
    ensures forall k :: 0 <= k < |r.0| ==> r.0[k] == NewestMatching(rows, where)[skip + k]
    ensures forall o :: o in r.0 ==> o in rows && LiveOrder(o) && where(o)
    ensures Sorting.SortedBy(r.0, NewestFirst)
  {
    var all := NewestMatching(rows, where);
    var page := Seqs.Page(all, skip, take);
    assert forall o :: o in page ==> o in all;
    (page, |all|)
  }

  /** `orderBy: { orderNumber: "asc" }`, comparing code points. */
  predicate OrderNumberAscending(a: Order, b: Order) {
    Text.LexLe(a.orderNumber, b.orderNumber)
  }

  lemma OrderNumberAscendingIsTotal()
    ensures Sorting.TotalPreorder(OrderNumberAscending)
  {
    forall a: Order, b: Order ensures OrderNumberAscending(a, b) || OrderNumberAscending(b, a) {
      Text.LexLeTotal(a.orderNumber, b.orderNumber);
    }
    forall a: Order, b: Order, c: Order | OrderNumberAscending(a, b) && OrderNumberAscending(b, c)
      ensures OrderNumberAscending(a, c)
    {
      Text.LexLeTransitive(a.orderNumber, b.orderNumber, c.orderNumber);
    }
  }

  /** `listOrdersForReport`: every non-deleted row matching `where`, by order number. */
  function ListOrdersForReport(rows: seq<Order>, where: Order -> bool): (r: seq<Order>)
    ensures forall o :: o in r <==> o in rows && LiveOrder(o) && where(o)
    ensures multiset(r) == multiset(Matching(rows, where))
    ensures Sorting.SortedBy(r, OrderNumberAscending)
  {
    OrderNumberAscendingIsTotal();
    var r := Sorting.SortBy(Matching(rows, where), OrderNumberAscending);
    assert forall o :: o in r <==> o in multiset(Matching(rows, where));
    r
  }

  /** The table after `softDeleteOrder` marks row `k`. */
  function MarkDeleted(rows: seq<Order>, k: nat, now: int): (r: seq<Order>)
    requires k < |rows|
    ensures |r| == |rows| && r[k].deletedAt == Some(now)
    ensures r[k].(deletedAt := rows[k].deletedAt) == rows[k]
    ensures forall i :: 0 <= i < |rows| && i != k ==> r[i] == rows[i]
  {
    rows[k := rows[k].(deletedAt := Some(now))]
  }

  /** A soft-deleted order drops out of every list and count, and only that order does. */
  lemma {:induction false} SoftDeleteHidesFromLists(rows: seq<Order>, k: nat, now: int, where: Order -> bool)
    requires k < |rows|
    ensures MarkDeleted(rows, k, now)[k] !in Matching(MarkDeleted(rows, k, now), where)
    ensures |Matching(MarkDeleted(rows, k, now), where)| ==
            |Matching(rows, where)| - (if LiveOrder(rows[k]) && where(rows[k]) then 1 else 0)
    ensures forall o :: o in Matching(rows, where) && o != rows[k] ==> o in Matching(MarkDeleted(rows, k, now), where)
  {
    var after := MarkDeleted(rows, k, now);
    Seqs.FilterCountUpdate(rows, k, after[k], Listed(where));
    forall o | o in Matching(rows, where) && o != rows[k] ensures o in Matching(after, where) {
      var i :| 0 <= i < |rows| && rows[i] == o;
      assert after[i] == o;
    }
  }

  /** A soft-deleted order is still found by its id, with its deletion mark. */
  lemma SoftDeletedStillFetchable(rows: seq<Order>, k: nat, now: int)
    requires IdsUnique(rows) && k < |rows|
    ensures GetOrderById(MarkDeleted(rows, k, now), rows[k].id) == Some(MarkDeleted(rows, k, now)[k])
  {
    FindOrderUnique(MarkDeleted(rows, k, now), k);
  }

  /** The stored orders. */
  class OrderTable {
    var rows: seq<Order>

    ghost predicate Valid()
      reads this
    {
      IdsUnique(rows)
    }

    constructor ()
      ensures Valid() && rows == []
    {
      rows := [];
    }

    /** `createOrder`: insert a new row under a fresh id. */
    method CreateOrder(data: OrderCreate, id: string, now: int) returns (o: Order)
      requires Valid() && FindOrder(rows, id).None?
      modifies this
      ensures Valid()
      ensures o == NewOrder(data, id, now)
      ensures rows == old(rows) + [o]
    {
      o := NewOrder(data, id, now);
      rows := rows + [o];
    }

    /** `updateOrder`: rewrite the row with that id; an unknown id is Prisma's "not found" error. */
    method UpdateOrder(id: string, data: OrderUpdate) returns (r: Result<Order, Failure>)
      requires Valid()
      modifies this
      ensures Valid()
      ensures FindOrder(old(rows), id).None? ==> r == Err(RecordNotFound()) && rows == old(rows)
      ensures FindOrder(old(rows), id).Some? ==>
                var k := FindOrder(old(rows), id).value;
                r == Ok(ApplyOrderUpdate(old(rows)[k], data)) && rows == old(rows)[k := r.value]
    {
      match FindOrder(rows, id)
      case None =>
        r := Err(RecordNotFound());
      case Some(k) =>
        var updated := ApplyOrderUpdate(rows[k], data);
        rows := rows[k := updated];
        r := Ok(updated);
    }

    /** `softDeleteOrder`: stamp `deletedAt` on the row with that id and change nothing else. */
    method SoftDeleteOrder(id: string, now: int) returns (r: Result<Order, Failure>)
      requires Valid()
      modifies this
      ensures Valid()
      ensures FindOrder(old(rows), id).None? ==> r == Err(RecordNotFound()) && rows == old(rows)
      ensures FindOrder(old(rows), id).Some? ==>
                var k := FindOrder(old(rows), id).value;
                rows == MarkDeleted(old(rows), k, now) && r == Ok(rows[k])
    {
      match FindOrder(rows, id)
      case None =>
        r := Err(RecordNotFound());
      case Some(k) =>
        rows := MarkDeleted(rows, k, now);
        r := Ok(rows[k]);
    }
  }
}
