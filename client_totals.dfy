/**
 * `calculateTotals` of the invoice form: the subtotal is a `reduce` over the
 * line amounts, GST is charged on the service amount alone, and the grand
 * total adds the three.
 */
module ClientTotals {
  import opened InvoiceData
  import JsBuiltins

  /** The `reduce` callback: `(sum, item) => sum + item.amount`. */
  function AddAmount(sum: real, item: LineItem): real
  {
    sum + item.amount
  }

  /** Folding `AddAmount` from `acc` adds every amount to `acc`. */
  lemma {:induction false} ReduceAddsAmounts(items: seq<LineItem>, acc: real)
    ensures JsBuiltins.Reduce(items, AddAmount, acc) == acc + SumAmounts(items)
  {
    if items != [] {
      ReduceAddsAmounts(items[1..], AddAmount(acc, items[0]));
    }
  }

  /** `calculateTotals()` over the form's line items and service charge. */
  function CalculateTotals(lineItems: seq<LineItem>, serviceCharge: ServiceCharge): (t: Totals)
    ensures TotalsFor(t, lineItems, serviceCharge)
  {
    var subtotal := JsBuiltins.Reduce(lineItems, AddAmount, 0.0);
    ReduceAddsAmounts(lineItems, 0.0);
    var gstOnService := (serviceCharge.amount * serviceCharge.gstRate) / 100.0;
    var grandTotal := subtotal + serviceCharge.amount + gstOnService;
    Totals(subtotal, serviceCharge.amount, gstOnService, grandTotal)
  }

  /** Line items carry no GST: changing one line's amount by `d` moves the
      subtotal and the grand total by exactly `d`, and the GST not at all. */
  lemma ShiftOneAmount(lineItems: seq<LineItem>, i: nat, d: real, serviceCharge: ServiceCharge)
    requires i < |lineItems|
    ensures var before := CalculateTotals(lineItems, serviceCharge);
            var after := CalculateTotals(lineItems[i := lineItems[i].(amount := lineItems[i].amount + d)], serviceCharge);
            && after.subtotal == before.subtotal + d
            && after.grandTotal == before.grandTotal + d
            && after.gstOnService == before.gstOnService
            && after.serviceCharge == before.serviceCharge
  {
    SumAmountsUpdate(lineItems, i, lineItems[i].(amount := lineItems[i].amount + d));
  }

  /** The GST and the service figure depend on the service charge only. */
  lemma GstIgnoresLineItems(a: seq<LineItem>, b: seq<LineItem>, serviceCharge: ServiceCharge)
    ensures CalculateTotals(a, serviceCharge).gstOnService == CalculateTotals(b, serviceCharge).gstOnService
    ensures CalculateTotals(a, serviceCharge).grandTotal - CalculateTotals(a, serviceCharge).subtotal
         == CalculateTotals(b, serviceCharge).grandTotal - CalculateTotals(b, serviceCharge).subtotal
  {
  }

  /** With consistent lines, the subtotal is the sum of quantity * rate. */
  lemma SubtotalOfConsistentLines(lineItems: seq<LineItem>, serviceCharge: ServiceCharge)
    requires AllAmountsConsistent(lineItems)
    ensures CalculateTotals(lineItems, serviceCharge).subtotal == SumExtended(lineItems)
  {
    SumOfConsistentItems(lineItems);
  }

  /** Two lines 2 x 500 and 1 x 1500 with a service charge of 1000 at 18%:
      subtotal 2500, GST 180, grand total 3680. */
  lemma ExampleInvoiceTotals()
    ensures CalculateTotals([LineItem("", 2, 500.0, 1000.0), LineItem("", 1, 1500.0, 1500.0)],
                            ServiceCharge("Service Charges", 1000.0, 18.0, 0.0))
         == Totals(2500.0, 1000.0, 180.0, 3680.0)
  {
  }
}
