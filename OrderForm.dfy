/** The state logic of the order form: the searchable customer picker, and the three
    editable lists (bill-of-lading details, containers, charge lines) with their add,
    remove and edit-one-field helpers. */
module OrderForm {
  import opened Wrappers
  import Seqs
  import Text
  import opened CustomerRepository

  /** A customer as the picker shows it: `{name} ({code})`. */
  function Label(c: CustomerOption): (r: string)
    ensures |r| == |c.customerName| + |c.customerCode| + 3
    ensures r[..|c.customerName|] == c.customerName
  {
    c.customerName + " (" + c.customerCode + ")"
  }

  /** Whether a customer is listed for the typed search: its name or its code contains the
      search text, all three lower-cased. */
  function Shown(search: string): CustomerOption -> bool {
    (c: CustomerOption) => Text.Contains(Text.Lower(c.customerName), Text.Lower(search)) ||
         Text.Contains(Text.Lower(c.customerCode), Text.Lower(search))
  }

  /** The picker's `filtered` list. */
  function FilterCustomers(customers: seq<CustomerOption>, search: string): (r: seq<CustomerOption>)
    ensures forall c :: c in r <==>
              && c in customers
              && (Text.Contains(Text.Lower(c.customerName), Text.Lower(search)) ||
                  Text.Contains(Text.Lower(c.customerCode), Text.Lower(search)))
    ensures |r| <= |customers|
  {
    Seqs.Filter(customers, Shown(search))
  }

  /** With nothing typed, every customer is listed, in the order given. */
  lemma EmptySearchListsEveryone(customers: seq<CustomerOption>)
    ensures FilterCustomers(customers, "") == customers
  {
    forall c | c in customers ensures Shown("")(c) {
      assert Text.OccursAt(Text.Lower(c.customerName), Text.Lower(""), 0);
    }
    Seqs.FilterAll(customers, Shown(""));
  }

  /** The search ignores ASCII case on both sides. */
  lemma SearchIgnoresCase(customers: seq<CustomerOption>, search: string)
    ensures FilterCustomers(customers, Text.Lower(search)) == FilterCustomers(customers, search)
  {
    Text.LowerIdempotent(search);
    assert Shown(Text.Lower(search)) == Shown(search);
  }

  /** `customers.find(c => c.id === value)`. */
  function Selected(customers: seq<CustomerOption>, value: string): (r: Option<CustomerOption>)
    ensures r.Some? ==> r.value in customers && r.value.id == value
    ensures r.None? <==> forall c :: c in customers ==> c.id != value
  {
    match Seqs.IndexWhere(customers, (c: CustomerOption) => c.id == value)
    case None => None
    case Some(k) => Some(customers[k])
  }

  /** The text in the picker's input box. */
  function DisplayValue(customers: seq<CustomerOption>, value: string, open: bool, search: string): (r: string)
    ensures open ==> r == search
    ensures !open && Selected(customers, value).None? ==> r == ""
    ensures !open && Selected(customers, value).Some? ==> r == Label(Selected(customers, value).value)
    ensures !open && r != "" ==> exists c :: c in customers && c.id == value && r == Label(c)
  {
    if open then search
    else match Selected(customers, value)
      case None => ""
      case Some(c) => Label(c)
  }

  /** The picker's own state, and the selected id it reports to the form. */
  class CustomerPicker {
    var open: bool
    var search: string
    var value: string

    constructor (value: string)
      ensures !open && search == "" && this.value == value
    {
      open := false;
      search := "";
      this.value := value;
    }

    /** Focusing the box opens the list with an empty search. */
    method Focus()
      modifies this
      ensures open && search == "" && value == old(value)
    {
      open := true;
      search := "";
    }

    /** Typing replaces the search, opens the list and drops any selection. */
    method Type(text: string)
      modifies this
      ensures open && search == text && value == ""
    {
      search := text;
      if !open {
        open := true;
      }
      if value != "" {
        value := "";
      }
    }

    /** Clicking a listed customer selects it and closes the list. */
    method Pick(c: CustomerOption)
      modifies this
      ensures !open && search == "" && value == c.id
    {
      value := c.id;
      search := "";
      open := false;
    }

    /** A mouse press outside the picker closes the list; the search and the selection stay. */
    method ClickOutside()
      modifies this
      ensures !open && search == old(search) && value == old(value)
    {
      open := false;
    }
  }

  /** Picking a customer shows its label in the closed box. */
  lemma PickShowsLabel(customers: seq<CustomerOption>, k: nat)
    requires k < |customers|
    requires forall i, j :: 0 <= i < j < |customers| ==> customers[i].id != customers[j].id
    ensures DisplayValue(customers, customers[k].id, false, "") == Label(customers[k])
  {
    var r := Selected(customers, customers[k].id);
    var i :| 0 <= i < |customers| && customers[i] == r.value;
    assert i == k;
  }

  datatype DetailRow = DetailRow(
    billNumber: string, marks: string, description: string, qty: real, weight: real, volume: real)

  datatype ContainerRow = ContainerRow(
    billNumber: string, containerNumber: string, sealNumber: string, containerWeight: real)

  datatype ChargeLine = ChargeLine(
    description: string, qty: real, saleRate: real, costRate: real, vatPercent: real, currency: string)

  /** One `(field, value)` pair handed to `updateDetail`. */
  datatype DetailEdit =
    | SetBillNumber(text: string) | SetMarks(text: string) | SetDescription(text: string)
    | SetQty(number: real) | SetWeight(number: real) | SetVolume(number: real)

  datatype ContainerEdit =
    | SetContainerBill(text: string) | SetContainerNumber(text: string) | SetSealNumber(text: string)
    | SetContainerWeight(number: real)

  datatype ChargeEdit =
    | SetChargeDescription(text: string) | SetChargeQty(number: real) | SetSaleRate(number: real)
    | SetCostRate(number: real) | SetVatPercent(number: real) | SetCurrency(text: string)

  const NewDetail := DetailRow("", "", "", 1.0, 0.0, 0.0)
  const NewContainer := ContainerRow("", "", "", 0.0)
  const NewCharge := ChargeLine("", 1.0, 0.0, 0.0, 0.0, "USD")

  /** `{ ...row, [field]: value }`: the named field takes the value, the others keep theirs. */
  function EditDetail(d: DetailRow, e: DetailEdit): (r: DetailRow)
    ensures r.billNumber == if e.SetBillNumber? then e.text else d.billNumber
    ensures r.marks == if e.SetMarks? then e.text else d.marks
    ensures r.description == if e.SetDescription? then e.text else d.description
    ensures r.qty == if e.SetQty? then e.number else d.qty
    ensures r.weight == if e.SetWeight? then e.number else d.weight
    ensures r.volume == if e.SetVolume? then e.number else d.volume
  {
    match e
    case SetBillNumber(t) => d.(billNumber := t)
    case SetMarks(t) => d.(marks := t)
    case SetDescription(t) => d.(description := t)
    case SetQty(n) => d.(qty := n)
    case SetWeight(n) => d.(weight := n)
    case SetVolume(n) => d.(volume := n)
  }

  function EditContainer(c: ContainerRow, e: ContainerEdit): (r: ContainerRow)
    ensures r.billNumber == if e.SetContainerBill? then e.text else c.billNumber
    ensures r.containerNumber == if e.SetContainerNumber? then e.text else c.containerNumber
    ensures r.sealNumber == if e.SetSealNumber? then e.text else c.sealNumber
    ensures r.containerWeight == if e.SetContainerWeight? then e.number else c.containerWeight
  {
    match e
    case SetContainerBill(t) => c.(billNumber := t)
    case SetContainerNumber(t) => c.(containerNumber := t)
    case SetSealNumber(t) => c.(sealNumber := t)
    case SetContainerWeight(n) => c.(containerWeight := n)
  }

  function EditCharge(c: ChargeLine, e: ChargeEdit): (r: ChargeLine)
    ensures r.description == if e.SetChargeDescription? then e.text else c.description
    ensures r.qty == if e.SetChargeQty? then e.number else c.qty
    ensures r.saleRate == if e.SetSaleRate? then e.number else c.saleRate
    ensures r.costRate == if e.SetCostRate? then e.number else c.costRate
    ensures r.vatPercent == if e.SetVatPercent? then e.number else c.vatPercent
    ensures r.currency == if e.SetCurrency? then e.text else c.currency
  {
    match e
    case SetChargeDescription(t) => c.(description := t)
    case SetChargeQty(n) => c.(qty := n)
    case SetSaleRate(n) => c.(saleRate := n)
    case SetCostRate(n) => c.(costRate := n)
    case SetVatPercent(n) => c.(vatPercent := n)
    case SetCurrency(t) => c.(currency := t)
  }

  /** The bill numbers offered in a container's BL select: those of the details whose
      trimmed bill number is not empty, untrimmed, in detail order. */
  function BlOptions(details: seq<DetailRow>): (r: seq<string>)
    ensures |r| <= |details|
    ensures forall b :: b in r ==> Text.Trim(b) != ""
  {
    if details == [] then []
    else
      var last := details[|details| - 1];
      var front := BlOptions(details[..|details| - 1]);
      if Text.Trim(last.billNumber) != "" then front + [last.billNumber] else front
  }

  /** Some detail carries the bill number `b`, and `b` is not blank. */
  ghost predicate Carried(details: seq<DetailRow>, b: string) {
    exists d :: d in details && d.billNumber == b && Text.Trim(b) != ""
  }

  /** A bill number is offered exactly when some detail carries it and it is not blank. */
  lemma {:induction false} BlOptionsMembers(details: seq<DetailRow>)
    ensures forall b :: b in BlOptions(details) <==> Carried(details, b)
    decreases |details|
  {
    if details != [] {
      var front := details[..|details| - 1];
      var last := details[|details| - 1];
      BlOptionsMembers(front);
      assert details == front + [last];
      var kept := Text.Trim(last.billNumber) != "";
      assert BlOptions(details) == if kept then BlOptions(front) + [last.billNumber] else BlOptions(front);
      forall b ensures b in BlOptions(details) <==> Carried(details, b) {
        if Carried(details, b) {
          var d :| d in details && d.billNumber == b && Text.Trim(b) != "";
          if d != last {
            assert d in front;
            assert Carried(front, b);
          }
        }
        if Carried(front, b) {
          var d :| d in front && d.billNumber == b && Text.Trim(b) != "";
          assert d in details;
        }
        if kept && b == last.billNumber {
          assert last in details;
        }
      }
    }
  }

  /** The options of one more detail: its bill number is added when it is not blank. */
  lemma BlOptionsSnoc(xs: seq<DetailRow>, d: DetailRow)
    ensures BlOptions(xs + [d]) == BlOptions(xs) + (if Text.Trim(d.billNumber) != "" then [d.billNumber] else [])
  {
    assert (xs + [d])[..|xs + [d]| - 1] == xs;
  }

  /** The options of a longer list start with the options of its prefix. */
  lemma {:induction false} BlOptionsAppend(a: seq<DetailRow>, b: seq<DetailRow>)
    ensures BlOptions(a + b) == BlOptions(a) + BlOptions(b)
    decreases |b|
  {
    if b == [] {
      assert a + b == a;
    } else {
      var b' := b[..|b| - 1];
      var last := b[|b| - 1];
      assert b == b' + [last];
      assert a + b == (a + b') + [last];
      var tail := if Text.Trim(last.billNumber) != "" then [last.billNumber] else [];
      BlOptionsSnoc(a + b', last);
      BlOptionsSnoc(b', last);
      BlOptionsAppend(a, b');
      ConcatAssociates(BlOptions(a), BlOptions(b'), tail);
    }
  }

  /** Regrouping a concatenation; stated once so the step above costs the solver little. */
  lemma ConcatAssociates(x: seq<string>, y: seq<string>, z: seq<string>)
    ensures (x + y) + z == x + (y + z)
  {
  }

  /** The three editable lists of the form. */
  class OrderFormState {
    var details: seq<DetailRow>
    var containers: seq<ContainerRow>
    var charges: seq<ChargeLine>

    /** The lists of the order being edited, or empty ones for a new order. */
    constructor (details: seq<DetailRow>, containers: seq<ContainerRow>, charges: seq<ChargeLine>)
      ensures this.details == details && this.containers == containers && this.charges == charges
    {
      this.details := details;
      this.containers := containers;
      this.charges := charges;
    }

    method AddDetail()
      modifies this
      ensures details == old(details) + [NewDetail]
      ensures containers == old(containers) && charges == old(charges)
    {
      details := details + [NewDetail];
    }

    /** `filter((_, i) => i !== index)`: an index outside the list removes nothing. */
    method RemoveDetail(index: int)
      modifies this
      ensures details == Seqs.RemoveAt(old(details), index)
      ensures containers == old(containers) && charges == old(charges)
    {
      details := Seqs.RemoveAt(details, index);
    }

    method UpdateDetail(index: nat, e: DetailEdit)
      requires index < |details|
      modifies this
      ensures details == old(details)[index := EditDetail(old(details)[index], e)]
      ensures containers == old(containers) && charges == old(charges)
    {
      var copy := details;
      copy := copy[index := EditDetail(copy[index], e)];
      details := copy;
    }

    method AddContainer()
      modifies this
      ensures containers == old(containers) + [NewContainer]
      ensures details == old(details) && charges == old(charges)
    {
      containers := containers + [NewContainer];
    }

    method RemoveContainer(index: int)
      modifies this
      ensures containers == Seqs.RemoveAt(old(containers), index)
      ensures details == old(details) && charges == old(charges)
    {
      containers := Seqs.RemoveAt(containers, index);
    }

    method UpdateContainer(index: nat, e: ContainerEdit)
      requires index < |containers|
      modifies this
      ensures containers == old(containers)[index := EditContainer(old(containers)[index], e)]
      ensures details == old(details) && charges == old(charges)
    {
      var copy := containers;
      copy := copy[index := EditContainer(copy[index], e)];
      containers := copy;
    }

    method AddCharge()
      modifies this
      ensures charges == old(charges) + [NewCharge]
      ensures details == old(details) && containers == old(containers)
    {
      charges := charges + [NewCharge];
    }

    method RemoveCharge(index: int)
      modifies this
      ensures charges == Seqs.RemoveAt(old(charges), index)
      ensures details == old(details) && containers == old(containers)
    {
      charges := Seqs.RemoveAt(charges, index);
    }

    method UpdateCharge(index: nat, e: ChargeEdit)
      requires index < |charges|
      modifies this
      ensures charges == old(charges)[index := EditCharge(old(charges)[index], e)]
      ensures details == old(details) && containers == old(containers)
    {
      var copy := charges;
      copy := copy[index := EditCharge(copy[index], e)];
      charges := copy;
    }
  }
}
