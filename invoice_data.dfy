/**
 * The records the form sends and the backend receives (the Customer,
 * LineItem, ServiceCharge, InvoiceTotals and InvoiceCreate models of the
 * backend, which the form's state mirrors field for field), the per-item
 * amount relation, and the documented totals formula both sides implement.
 * Money is a `real`: neither binary floating point nor display rounding is
 * modelled.
 */
module InvoiceData {
  import opened Wrappers

  datatype Customer = Customer(
    name: string,
    address: string,
    gstNumber: Option<string>,
    phone: Option<string>,
    email: Option<string>)

  datatype LineItem = LineItem(description: string, quantity: int, rate: real, amount: real)

  /** The one taxed charge; `gstRate` is a percentage (18.0 means 18%). */
  datatype ServiceCharge = ServiceCharge(description: string, amount: real, gstRate: real, gstAmount: real)

  datatype Totals = Totals(subtotal: real, serviceCharge: real, gstOnService: real, grandTotal: real)

  /** The body of a create request. */
  datatype InvoiceCreate = InvoiceCreate(
    invoiceNumber: string,
    customer: Customer,
    lineItems: seq<LineItem>,
    serviceCharges: ServiceCharge)

  /** A line's amount is its quantity times its rate. */
  predicate AmountConsistent(item: LineItem)
  {
    item.amount == item.quantity as real * item.rate
  }

  predicate AllAmountsConsistent(items: seq<LineItem>)
  {
    forall i :: 0 <= i < |items| ==> AmountConsistent(items[i])
  }

  /** The sum of the line amounts (the reference definition). */
  function SumAmounts(items: seq<LineItem>): real
  {
    if items == [] then 0.0 else items[0].amount + SumAmounts(items[1..])
  }

  /** The sum of quantity * rate over the lines. */
  function SumExtended(items: seq<LineItem>): real
  {
    if items == [] then 0.0 else items[0].quantity as real * items[0].rate + SumExtended(items[1..])
  }

  /** The documented formula: the subtotal adds the line amounts, GST is
      charged on the service amount alone, and the grand total is the
      subtotal plus the service amount plus that GST. */
  predicate TotalsFor(t: Totals, items: seq<LineItem>, charge: ServiceCharge)
  {
    && t.subtotal == SumAmounts(items)
    && t.serviceCharge == charge.amount
    && t.gstOnService == charge.amount * charge.gstRate / 100.0
    && t.grandTotal == t.subtotal + charge.amount + t.gstOnService
  }

  /** The formula fixes every field, so two totals computed by it agree. */
  lemma TotalsForUnique(t1: Totals, t2: Totals, items: seq<LineItem>, charge: ServiceCharge)
    requires TotalsFor(t1, items, charge) && TotalsFor(t2, items, charge)
    ensures t1 == t2
  {
  }

  /** Changing the amount of line `i` changes the sum by the same difference. */
  lemma {:induction false} SumAmountsUpdate(items: seq<LineItem>, i: nat, item: LineItem)
    requires i < |items|
    ensures SumAmounts(items[i := item]) == SumAmounts(items) - items[i].amount + item.amount
  {
    if i > 0 {
      assert items[i := item][1..] == items[1..][i - 1 := item];
      SumAmountsUpdate(items[1..], i - 1, item);
    } else {
      assert items[i := item][1..] == items[1..];
    }
  }

  /** When every line is consistent, summing the amounts is summing quantity * rate. */
  lemma {:induction false} SumOfConsistentItems(items: seq<LineItem>)
    requires AllAmountsConsistent(items)
    ensures SumAmounts(items) == SumExtended(items)
  {
    if items != [] {
      assert AmountConsistent(items[0]);
      SumOfConsistentItems(items[1..]);
    }
  }
}
