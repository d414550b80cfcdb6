/** The rows the application stores through Prisma: orders with their bills of lading, containers
    and charge lines, customers with their addresses, contacts and documents, e-mail verification
    records and users. Timestamps are milliseconds since the epoch; `None` stands for SQL `NULL`. */
module Records {
  import opened Wrappers
  import Seqs

  /** The six amounts derived from a charge line (stored with the line, summed by the report). */
  datatype Financials = Financials(
    saleAmount: real, costAmount: real,
    vatSale: real, vatCost: real,
    totalSale: real, totalCost: real)

  /** A bill of lading on an order. */
  datatype Detail = Detail(
    billNumber: string, marks: Option<string>, description: Option<string>,
    qty: real, weight: Option<real>, volume: Option<real>)

  /** A container on an order, optionally tied to a bill of lading by its number. */
  datatype Container = Container(
    billNumber: Option<string>, containerNumber: Option<string>,
    sealNumber: Option<string>, containerWeight: Option<real>)

  /** The raw fields of a charge line. */
  datatype Charge = Charge(
    description: string, qty: real, saleRate: real, costRate: real,
    vatPercent: real, currency: string)

  /** A stored charge line: its raw fields and the amounts computed from them. */
  datatype ChargeRow = ChargeRow(line: Charge, amounts: Financials)

  datatype Order = Order(
    id: string, orderNumber: string, orderDate: int, executionDate: Option<int>,
    customerId: string,
    details: seq<Detail>, containers: seq<Container>, charges: seq<ChargeRow>,
    createdAt: int, deletedAt: Option<int>)

  datatype Address = Address(
    address: string, city: Option<string>, state: Option<string>,
    country: Option<string>, telephone: Option<string>)

  datatype Contact = Contact(
    contactName: string, email: Option<string>, phone: Option<string>, position: Option<string>)

  datatype Document = Document(
    fileName: string, filePath: string, fileType: string, fileSize: int, notes: Option<string>)

  datatype Customer = Customer(
    id: string, customerCode: string, customerName: string,
    telephone: Option<string>, email: Option<string>, country: Option<string>,
    city: Option<string>, state: Option<string>, salesPerson: Option<string>,
    addresses: seq<Address>, contacts: seq<Contact>, documents: seq<Document>,
    createdAt: int, deletedAt: Option<int>)

  /** The one-time password issued for an e-mail address, keyed by that address. */
  datatype EmailVerification = EmailVerification(otp: string, expiresAt: int, verified: bool)

  datatype User = User(
    id: string, username: string, passwordHash: string, name: Option<string>, lastLogin: Option<int>)

  /** A row counts as present in lists and counts only while it is not soft-deleted. */
  predicate LiveOrder(o: Order) {
    o.deletedAt.None?
  }

  predicate LiveCustomer(c: Customer) {
    c.deletedAt.None?
  }

  /** The name of the customer an order's (required) customer relation points at; soft-deleted
      customers still resolve. */
  function CustomerNameOf(customers: seq<Customer>, id: string): (name: string)
    ensures (exists k :: 0 <= k < |customers| && customers[k].id == id) ==>
              exists k :: 0 <= k < |customers| && customers[k].id == id && customers[k].customerName == name
  {
    match Seqs.IndexWhere(customers, (c: Customer) => c.id == id)
    case Some(k) => customers[k].customerName
    case None => ""
  }
}
