/** The order summary report: every covered order's charge amounts converted into one target
    currency and summed, and the XML rendering of the resulting rows. */
module ReportService {
  import opened Wrappers
  import opened Records
  import opened ReportRepository

  /** The currencies a report can be expressed in (`"USD" | "AED"`). */
  datatype Target = USD | AED

  /** AED per USD. */
  const ExchangeRate: real := 3.6725

  function CodeOf(target: Target): string {
    match target
    case USD => "USD"
    case AED => "AED"
  }

  /** The factor a charge line's amounts are multiplied by. Only USD to AED and AED to USD are
      converted; every other line, whatever its currency, is taken at face value. */
  function Rate(currency: string, target: Target): (r: real)
    ensures r > 0.0
    ensures currency == "USD" && target == AED ==> r == ExchangeRate
    ensures currency == "AED" && target == USD ==> r * ExchangeRate == 1.0
    ensures currency == CodeOf(target) ==> r == 1.0
    ensures currency != "USD" && currency != "AED" ==> r == 1.0
  {
    if currency == "USD" && target == AED then ExchangeRate
    else if currency == "AED" && target == USD then 1.0 / ExchangeRate
    else 1.0
  }

  /** Converting to AED and back to USD returns the original amount. */
  lemma RateRoundTrip(x: real)
    ensures Rate("USD", AED) * Rate("AED", USD) == 1.0
    ensures x * Rate("USD", AED) * Rate("AED", USD) == x
  {
  }

  /** The reduce's initial accumulator. */
  const Zero := Financials(0.0, 0.0, 0.0, 0.0, 0.0, 0.0)

  function Plus(a: Financials, b: Financials): Financials {
    Financials(a.saleAmount + b.saleAmount, a.costAmount + b.costAmount,
               a.vatSale + b.vatSale, a.vatCost + b.vatCost,
               a.totalSale + b.totalSale, a.totalCost + b.totalCost)
  }

  function Scaled(f: Financials, k: real): Financials {
    Financials(f.saleAmount * k, f.costAmount * k, f.vatSale * k, f.vatCost * k,
               f.totalSale * k, f.totalCost * k)
  }

  /** The reduce callback: add one line's amounts, converted, to the accumulator. */
  function AddConverted(acc: Financials, charge: ChargeAmounts, target: Target): Financials {
    Plus(acc, Scaled(charge.amounts, Rate(charge.currency, target)))
  }

  /** `charges.reduce(AddConverted, acc)`: a left fold. */
  function Reduce(charges: seq<ChargeAmounts>, acc: Financials, target: Target): Financials {
    if charges == [] then acc
    else Reduce(charges[1..], AddConverted(acc, charges[0], target), target)
  }

  /** The intended totals, field by field: the sum over the lines of amount times that line's
      factor. */
  function ConvertedSum(charges: seq<ChargeAmounts>, target: Target): Financials {
    if charges == [] then Zero
    else Plus(Scaled(charges[0].amounts, Rate(charges[0].currency, target)), ConvertedSum(charges[1..], target))
  }

  /** The per-line margins, converted and summed. */
  function NetSum(charges: seq<ChargeAmounts>, target: Target): real {
    if charges == [] then 0.0
    else (charges[0].amounts.totalSale - charges[0].amounts.totalCost) * Rate(charges[0].currency, target)
         + NetSum(charges[1..], target)
  }

  /** The reduce computes the converted sum on top of its starting accumulator. */
  lemma {:induction false} ReduceIsConvertedSum(charges: seq<ChargeAmounts>, acc: Financials, target: Target)
    ensures Reduce(charges, acc, target) == Plus(acc, ConvertedSum(charges, target))
  {
    if charges != [] {
      ReduceIsConvertedSum(charges[1..], AddConverted(acc, charges[0], target), target);
    }
  }

  lemma {:induction false} ConvertedSumAppend(a: seq<ChargeAmounts>, b: seq<ChargeAmounts>, target: Target)
    ensures ConvertedSum(a + b, target) == Plus(ConvertedSum(a, target), ConvertedSum(b, target))
  {
    if a == [] {
      assert a + b == b;
    } else {
      assert (a + b)[1..] == a[1..] + b;
      ConvertedSumAppend(a[1..], b, target);
    }
  }

  /** The totals do not depend on the order of the charge lines. */
  lemma {:induction false} ConvertedSumPermutation(a: seq<ChargeAmounts>, b: seq<ChargeAmounts>, target: Target)
    requires multiset(a) == multiset(b)
    ensures ConvertedSum(a, target) == ConvertedSum(b, target)
    decreases |a|
  {
    if a == [] {
      assert |b| == |multiset(b)| == 0;
    } else {
      var x := a[0];
      assert x in multiset(b);
      var k :| 0 <= k < |b| && b[k] == x;
      var rest := b[..k] + b[k + 1..];
      assert multiset(a[1..]) == multiset(rest) by {
        assert a == [x] + a[1..];
        assert b == b[..k] + [x] + b[k + 1..];
        assert multiset(b) == multiset(b[..k]) + multiset{x} + multiset(b[k + 1..]);
        assert multiset(rest) == multiset(b[..k]) + multiset(b[k + 1..]);
        assert multiset{x} + multiset(a[1..]) == multiset{x} + multiset(rest);
        assert forall y :: multiset(a[1..])[y] == multiset(rest)[y] by {
          forall y ensures multiset(a[1..])[y] == multiset(rest)[y] {
            assert (multiset{x} + multiset(a[1..]))[y] == (multiset{x} + multiset(rest))[y];
          }
        }
      }
      ConvertedSumPermutation(a[1..], rest, target);
      ConvertedSumRemove(b, k, target);
    }
  }

  /** The totals are line `k`'s converted amounts plus the totals of the other lines. */
  lemma ConvertedSumRemove(b: seq<ChargeAmounts>, k: nat, target: Target)
    requires k < |b|
    ensures ConvertedSum(b, target) ==
            Plus(Scaled(b[k].amounts, Rate(b[k].currency, target)), ConvertedSum(b[..k] + b[k + 1..], target))
  {
    assert b == b[..k] + ([b[k]] + b[k + 1..]);
    ConvertedSumAppend(b[..k], [b[k]] + b[k + 1..], target);
    ConvertedSumAppend(b[..k], b[k + 1..], target);
    assert ([b[k]] + b[k + 1..])[1..] == b[k + 1..];
  }

  /** The margin of the summed totals is the sum of the per-line margins. */
  lemma {:induction false} NetIsSumOfMargins(charges: seq<ChargeAmounts>, target: Target)
    ensures ConvertedSum(charges, target).totalSale - ConvertedSum(charges, target).totalCost == NetSum(charges, target)
  {
    if charges != [] {
      NetIsSumOfMargins(charges[1..], target);
    }
  }

  /** One row of the summary. */
  datatype SummaryRow = SummaryRow(
    orderNumber: string, executionDate: string, customerName: string,
    totals: Financials, netAmount: real)

  /** The row for one order. `dayText` renders a timestamp as its `YYYY-MM-DD` day. */
  function SummarizeOrder(o: ReportOrder, target: Target, dayText: int -> string): (row: SummaryRow)
    ensures row.orderNumber == o.orderNumber && row.customerName == o.customerName
    ensures o.executionDate.None? ==> row.executionDate == ""
    ensures o.executionDate.Some? ==> row.executionDate == dayText(o.executionDate.value)
    ensures row.totals == ConvertedSum(o.charges, target)
    ensures row.netAmount == NetSum(o.charges, target)
    ensures o.charges == [] ==> row.totals == Zero && row.netAmount == 0.0
  {
    ReduceIsConvertedSum(o.charges, Zero, target);
    NetIsSumOfMargins(o.charges, target);
    var totals := Reduce(o.charges, Zero, target);
    SummaryRow(
      o.orderNumber,
      if o.executionDate.Some? then dayText(o.executionDate.value) else "",
      o.customerName,
      totals,
      totals.totalSale - totals.totalCost)
  }

  /** Reordering an order's charge lines leaves its row unchanged. */
  lemma RowIgnoresChargeOrder(o: ReportOrder, charges: seq<ChargeAmounts>, target: Target, dayText: int -> string)
    requires multiset(charges) == multiset(o.charges)
    ensures SummarizeOrder(o.(charges := charges), target, dayText) == SummarizeOrder(o, target, dayText)
  {
    ConvertedSumPermutation(charges, o.charges, target);
    NetIsSumOfMargins(charges, target);
    NetIsSumOfMargins(o.charges, target);
  }

  /** `getOrderSummary(startDate, endDate, target)`: one row per reported order, in report order. */
  function GetOrderSummary(
    rows: seq<Order>, customers: seq<Customer>, startDate: Option<int>, endDate: Option<int>,
    target: Target, dayText: int -> string): (r: seq<SummaryRow>)
    ensures |r| == |GetOrderSummaryData(rows, customers, startDate, endDate)|
    ensures forall i :: 0 <= i < |r| ==>
              r[i] == SummarizeOrder(GetOrderSummaryData(rows, customers, startDate, endDate)[i], target, dayText)
  {
    var data := GetOrderSummaryData(rows, customers, startDate, endDate);
    seq(|data|, i requires 0 <= i < |data| => SummarizeOrder(data[i], target, dayText))
  }

  /** A line of 2 at 100 sale and 80 cost with 5% VAT, in USD. */
  function SampleLine(): ChargeAmounts {
    ChargeAmounts(Financials(200.0, 160.0, 10.0, 8.0, 210.0, 168.0), "USD")
  }

  /** The sample line reported in USD keeps its amounts and leaves a margin of 42. */
  lemma SampleInUsd(dayText: int -> string)
    ensures var row := SummarizeOrder(ReportOrder("ORD-1", None, "Acme", [SampleLine()]), USD, dayText);
      row.totals == Financials(200.0, 160.0, 10.0, 8.0, 210.0, 168.0) && row.netAmount == 42.0 &&
      row.executionDate == ""
  {
    var line := SampleLine();
    assert [line][1..] == [];
    assert Rate(line.currency, USD) == 1.0;
    assert ConvertedSum([line], USD) == Plus(Scaled(line.amounts, 1.0), Zero);
  }

  /** The sample line reported in AED is multiplied by the exchange rate. */
  lemma SampleInAed(dayText: int -> string)
    ensures var row := SummarizeOrder(ReportOrder("ORD-1", None, "Acme", [SampleLine()]), AED, dayText);
      row.totals.totalSale == 771.225 && row.totals.totalCost == 616.98
  {
    var line := SampleLine();
    assert [line][1..] == [];
    assert Rate(line.currency, AED) == ExchangeRate;
    assert ConvertedSum([line], AED) == Plus(Scaled(line.amounts, ExchangeRate), Zero);
  }

  // ---------------------------------------------------------------------------------------------
  // XML rendering (`generateOrderSummaryXml`)
  // ---------------------------------------------------------------------------------------------

  const XmlProlog := "<?xml version=\"1.0\" encoding=\"UTF-8\"?>\n<OrderSummary>\n"
  const XmlEpilog := "</OrderSummary>"

  /** A CDATA section around `s`. Nothing in `s` is escaped, so text containing `]]>` closes the
      section early and the document is then not well-formed. */
  function CData(s: string): string {
    "<![CDATA[" + s + "]]>"
  }

  /** The `<Order>` element of one row; `fmt` is `toFixed(2)`. */
  function OrderElement(row: SummaryRow, fmt: real -> string): string {
    "  <Order>\n"
    + "    <OrderNumber>" + CData(row.orderNumber) + "</OrderNumber>\n"
    + "    <ExecutionDate>" + CData(row.executionDate) + "</ExecutionDate>\n"
    + "    <CustomerName>" + CData(row.customerName) + "</CustomerName>\n"
    + "    <TotalSale>" + fmt(row.totals.totalSale) + "</TotalSale>\n"
    + "    <TotalCost>" + fmt(row.totals.totalCost) + "</TotalCost>\n"
    + "    <VatSale>" + fmt(row.totals.vatSale) + "</VatSale>\n"
    + "    <VatCost>" + fmt(row.totals.vatCost) + "</VatCost>\n"
    + "    <NetAmount>" + fmt(row.netAmount) + "</NetAmount>\n"
    + "  </Order>\n"
  }

  /** The elements of all rows, in row order. */
  function OrderElements(rows: seq<SummaryRow>, fmt: real -> string): string {
    ConcatMap(rows, (row: SummaryRow) => OrderElement(row, fmt))
  }

  /** The whole document. */
  function SummaryXml(rows: seq<SummaryRow>, fmt: real -> string): string {
    XmlProlog + OrderElements(rows, fmt) + XmlEpilog
  }

  /** The renderings of the elements of `xs`, joined in order. */
  function ConcatMap<T>(xs: seq<T>, render: T -> string): string {
    if xs == [] then ""
    else ConcatMap(xs[..|xs| - 1], render) + render(xs[|xs| - 1])
  }

  lemma {:induction false} ConcatMapAppend<T>(a: seq<T>, b: seq<T>, render: T -> string)
    ensures ConcatMap(a + b, render) == ConcatMap(a, render) + ConcatMap(b, render)
  {
    if b == [] {
      assert a + b == a;
    } else {
      assert (a + b)[..|a + b| - 1] == a + b[..|b| - 1];
      ConcatMapAppend(a, b[..|b| - 1], render);
    }
  }

  /** The rendering of `xs` is the rendering of the elements before `i`, then element `i`, then
      the rest. */
  lemma ConcatMapLayout<T>(xs: seq<T>, render: T -> string, i: nat)
    requires i < |xs|
    ensures ConcatMap(xs, render) == ConcatMap(xs[..i], render) + render(xs[i]) + ConcatMap(xs[i + 1..], render)
  {
    var front := xs[..i + 1];
    assert xs == front + xs[i + 1..];
    ConcatMapAppend(front, xs[i + 1..], render);
    assert front[..i] == xs[..i];
  }

  /** The document is the prolog, then the element of every row in order, then the epilog:
      row `i`'s element sits right after the elements of the rows before it. */
  lemma SummaryXmlLayout(rows: seq<SummaryRow>, fmt: real -> string, i: nat)
    requires i < |rows|
    ensures SummaryXml(rows, fmt) ==
      XmlProlog + OrderElements(rows[..i], fmt) + OrderElement(rows[i], fmt)
      + OrderElements(rows[i + 1..], fmt) + XmlEpilog
  {
    FramedLayout(XmlProlog, XmlEpilog, rows, (row: SummaryRow) => OrderElement(row, fmt), i);
  }

  lemma FramedLayout<T>(prefix: string, suffix: string, xs: seq<T>, render: T -> string, i: nat)
    requires i < |xs|
    ensures prefix + ConcatMap(xs, render) + suffix ==
            prefix + ConcatMap(xs[..i], render) + render(xs[i]) + ConcatMap(xs[i + 1..], render) + suffix
  {
    ConcatMapLayout(xs, render, i);
    JoinAssociates(prefix, ConcatMap(xs[..i], render), render(xs[i]), ConcatMap(xs[i + 1..], render), suffix);
  }

  lemma JoinAssociates(prefix: string, a: string, b: string, c: string, suffix: string)
    ensures prefix + (a + b + c) + suffix == prefix + a + b + c + suffix
  {
  }

  /** Appending one more rendering to a prefixed rendering. */
  lemma ExtendRendering<T>(prefix: string, xs: seq<T>, render: T -> string, i: nat)
    requires i < |xs|
    ensures prefix + ConcatMap(xs[..i], render) + render(xs[i]) == prefix + ConcatMap(xs[..i + 1], render)
  {
    assert xs[..i + 1][..i] == xs[..i];
  }

  /** `generateOrderSummaryXml(startDate, endDate, target)`: appends one element per summary
      row to the prolog, then closes the document. */
  method GenerateOrderSummaryXml(
    rows: seq<Order>, customers: seq<Customer>, startDate: Option<int>, endDate: Option<int>,
    target: Target, dayText: int -> string, fmt: real -> string) returns (xml: string)
    ensures xml == SummaryXml(GetOrderSummary(rows, customers, startDate, endDate, target, dayText), fmt)
  {
    var data := GetOrderSummary(rows, customers, startDate, endDate, target, dayText);
    xml := XmlProlog;
    var i := 0;
    while i < |data|
      invariant 0 <= i <= |data|
      invariant xml == XmlProlog + OrderElements(data[..i], fmt)
    {
      ExtendRendering(XmlProlog, data, (row: SummaryRow) => OrderElement(row, fmt), i);
      xml := xml + OrderElement(data[i], fmt);
      i := i + 1;
    }
    assert data[..i] == data;
    xml := xml + XmlEpilog;
  }
}
