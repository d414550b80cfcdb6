/** The `customer` table as the repository layer sees it: creation, update by id, soft delete,
    lookup by id, and the list that fills the customer picker. */
module CustomerRepository {
  import opened Wrappers
  import opened Records
  import opened Errors
  import Seqs
  import Sorting
  import Text

  /** What `createCustomer` hands to Prisma. */
  datatype CustomerCreate = CustomerCreate(
    customerCode: string, customerName: string,
    telephone: Option<string>, email: Option<string>, country: Option<string>,
    city: Option<string>, state: Option<string>, salesPerson: Option<string>,
    addresses: seq<Address>, contacts: seq<Contact>, documents: seq<Document>)

  /** What `updateCustomer` hands to Prisma. An outer `None` leaves the column alone; for a
      nullable column `Some(None)` writes `NULL`. A list, when present, replaces the stored one. */
  datatype CustomerUpdate = CustomerUpdate(
    customerCode: Option<string>, customerName: Option<string>,
    telephone: Option<Option<string>>, email: Option<Option<string>>, country: Option<Option<string>>,
    city: Option<Option<string>>, state: Option<Option<string>>, salesPerson: Option<Option<string>>,
    addresses: Option<seq<Address>>, contacts: Option<seq<Contact>>, documents: Option<seq<Document>>)

  function NewCustomer(data: CustomerCreate, id: string, now: int): (c: Customer)
    ensures c.id == id && c.createdAt == now && LiveCustomer(c)
  {
    Customer(id, data.customerCode, data.customerName, data.telephone, data.email, data.country,
             data.city, data.state, data.salesPerson, data.addresses, data.contacts, data.documents,
             now, None)
  }

  function Pick<T>(update: Option<T>, current: T): T {
    if update.Some? then update.value else current
  }

  /** The row after an update; the id, creation time and deletion mark are never touched. */
  function ApplyCustomerUpdate(c: Customer, u: CustomerUpdate): (r: Customer)
    ensures r.id == c.id && r.createdAt == c.createdAt && r.deletedAt == c.deletedAt
    ensures u == CustomerUpdate(None, None, None, None, None, None, None, None, None, None, None) ==> r == c
  {
    c.(customerCode := Pick(u.customerCode, c.customerCode),
       customerName := Pick(u.customerName, c.customerName),
       telephone := Pick(u.telephone, c.telephone),
       email := Pick(u.email, c.email),
       country := Pick(u.country, c.country),
       city := Pick(u.city, c.city),
       state := Pick(u.state, c.state),
       salesPerson := Pick(u.salesPerson, c.salesPerson),
       addresses := Pick(u.addresses, c.addresses),
       contacts := Pick(u.contacts, c.contacts),
       documents := Pick(u.documents, c.documents))
  }

  predicate IdsUnique(rows: seq<Customer>) {
    forall i, j :: 0 <= i < j < |rows| ==> rows[i].id != rows[j].id
  }

  function FindCustomer(rows: seq<Customer>, id: string): (r: Option<nat>)
    ensures r.Some? ==> r.value < |rows| && rows[r.value].id == id
    ensures r.None? <==> forall i :: 0 <= i < |rows| ==> rows[i].id != id
  {
    Seqs.IndexWhere(rows, (c: Customer) => c.id == id)
  }

  lemma FindCustomerUnique(rows: seq<Customer>, k: nat)
    requires IdsUnique(rows) && k < |rows|
    ensures FindCustomer(rows, rows[k].id) == Some(k)
  {
    assert FindCustomer(rows, rows[k].id).Some?;
  }

  /** `getCustomerById`: the row with that id, whether or not it is soft-deleted. */
  function GetCustomerById(rows: seq<Customer>, id: string): (r: Option<Customer>)
    ensures r.Some? <==> exists i :: 0 <= i < |rows| && rows[i].id == id
    ensures r.Some? ==> r.value in rows && r.value.id == id
  {
    match FindCustomer(rows, id)
    case None => None
    case Some(k) => Some(rows[k])
  }

  /** The table after `deleteCustomer` marks row `k`. */
  function MarkDeleted(rows: seq<Customer>, k: nat, now: int): (r: seq<Customer>)
    requires k < |rows|
    ensures |r| == |rows| && r[k].deletedAt == Some(now)
    ensures r[k].(deletedAt := rows[k].deletedAt) == rows[k]
    ensures forall i :: 0 <= i < |rows| && i != k ==> r[i] == rows[i]
  {
    rows[k := rows[k].(deletedAt := Some(now))]
  }

  /** A soft-deleted customer is still found by its id. */
  lemma DeletedCustomerStillFetchable(rows: seq<Customer>, k: nat, now: int)
    requires IdsUnique(rows) && k < |rows|
    ensures GetCustomerById(MarkDeleted(rows, k, now), rows[k].id) == Some(MarkDeleted(rows, k, now)[k])
  {
    FindCustomerUnique(MarkDeleted(rows, k, now), k);
  }

  /** An entry of the customer picker. */
  datatype CustomerOption = CustomerOption(id: string, customerCode: string, customerName: string)

  /** `orderBy: { customerName: "asc" }`, comparing code points. */
  predicate NameAscending(a: Customer, b: Customer) {
    Text.LexLe(a.customerName, b.customerName)
  }

  lemma NameAscendingIsTotal()
    ensures Sorting.TotalPreorder(NameAscending)
  {
    forall a: Customer, b: Customer ensures NameAscending(a, b) || NameAscending(b, a) {
      Text.LexLeTotal(a.customerName, b.customerName);
    }
    forall a: Customer, b: Customer, c: Customer | NameAscending(a, b) && NameAscending(b, c)
      ensures NameAscending(a, c)
    {
      Text.LexLeTransitive(a.customerName, b.customerName, c.customerName);
    }
  }

  function OptionOf(c: Customer): CustomerOption {
    CustomerOption(c.id, c.customerCode, c.customerName)
  }

  /** The non-deleted customers, by name. */
  function CustomersByName(rows: seq<Customer>): (r: seq<Customer>)
    ensures forall c :: c in r <==> c in rows && LiveCustomer(c)
    ensures multiset(r) == multiset(Seqs.Filter(rows, LiveCustomer))
    ensures Sorting.SortedBy(r, NameAscending)
  {
    NameAscendingIsTotal();
    var live := Seqs.Filter(rows, LiveCustomer);
    var r := Sorting.SortBy(live, NameAscending);
    assert forall c :: c in r <==> c in multiset(live);
    r
  }

  /** `listCustomersForDropdown`: id, code and name of every non-deleted customer, by name. */
  function ListCustomersForDropdown(rows: seq<Customer>): (r: seq<CustomerOption>)
    ensures |r| == |CustomersByName(rows)|
    ensures forall i :: 0 <= i < |r| ==> r[i] == OptionOf(CustomersByName(rows)[i])
    ensures forall i, j :: 0 <= i < j < |r| ==> Text.LexLe(r[i].customerName, r[j].customerName)
  {
    var sorted := CustomersByName(rows);
    seq(|sorted|, i requires 0 <= i < |sorted| => OptionOf(sorted[i]))
  }

  /** Every non-deleted customer appears in the picker, and, ids being unique, no deleted one. */
  lemma DropdownListsLiveCustomers(rows: seq<Customer>, c: Customer)
    requires c in rows
    ensures OptionOf(c) in ListCustomersForDropdown(rows) <== LiveCustomer(c)
    ensures IdsUnique(rows) ==> (OptionOf(c) in ListCustomersForDropdown(rows) ==> LiveCustomer(c))
    ensures |ListCustomersForDropdown(rows)| == |Seqs.Filter(rows, LiveCustomer)|
  {
    var sorted := CustomersByName(rows);
    var listed := ListCustomersForDropdown(rows);
    if LiveCustomer(c) {
      var i :| 0 <= i < |sorted| && sorted[i] == c;
      assert listed[i] == OptionOf(c);
    }
    if IdsUnique(rows) && OptionOf(c) in listed {
      var i :| 0 <= i < |listed| && listed[i] == OptionOf(c);
      var d := sorted[i];
      assert d in rows && LiveCustomer(d) && d.id == c.id;
      var a :| 0 <= a < |rows| && rows[a] == c;
      var b :| 0 <= b < |rows| && rows[b] == d;
      assert a == b;
    }
    assert |multiset(sorted)| == |multiset(Seqs.Filter(rows, LiveCustomer))|;
  }

  /** The stored customers. */
  class CustomerTable {
    var rows: seq<Customer>

    ghost predicate Valid()
      reads this
    {
      IdsUnique(rows)
    }

    constructor ()
      ensures Valid() && rows == []
    {
      rows := [];
    }

    /** `createCustomer`: insert a new row under a fresh id. */
    method CreateCustomer(data: CustomerCreate, id: string, now: int) returns (c: Customer)
      requires Valid() && FindCustomer(rows, id).None?
      modifies this
      ensures Valid()
      ensures c == NewCustomer(data, id, now) && rows == old(rows) + [c]
    {
      c := NewCustomer(data, id, now);
      rows := rows + [c];
    }

    /** `updateCustomer`: rewrite the row with that id. */
    method UpdateCustomer(id: string, data: CustomerUpdate) returns (r: Result<Customer, Failure>)
      requires Valid()
      modifies this
      ensures Valid()
      ensures FindCustomer(old(rows), id).None? ==> r == Err(RecordNotFound()) && rows == old(rows)
      ensures FindCustomer(old(rows), id).Some? ==>
                var k := FindCustomer(old(rows), id).value;
                r == Ok(ApplyCustomerUpdate(old(rows)[k], data)) && rows == old(rows)[k := r.value]
    {
      match FindCustomer(rows, id)
      case None =>
        r := Err(RecordNotFound());
      case Some(k) =>
        var updated := ApplyCustomerUpdate(rows[k], data);
        rows := rows[k := updated];
        r := Ok(updated);
    }

    /** `deleteCustomer`: stamp `deletedAt`; the row stays in the table. */
    method DeleteCustomer(id: string, now: int) returns (r: Result<Customer, Failure>)
      requires Valid()
      modifies this
      ensures Valid()
      ensures |rows| == |old(rows)|
      ensures FindCustomer(old(rows), id).None? ==> r == Err(RecordNotFound()) && rows == old(rows)
      ensures FindCustomer(old(rows), id).Some? ==>
                var k := FindCustomer(old(rows), id).value;
                rows == MarkDeleted(old(rows), k, now) && r == Ok(rows[k])
    {
      match FindCustomer(rows, id)
      case None =>
        r := Err(RecordNotFound());
      case Some(k) =>
        rows := MarkDeleted(rows, k, now);
        r := Ok(rows[k]);
    }
  }
}
