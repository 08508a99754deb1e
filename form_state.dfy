/**
 * The state of the invoice form and the handlers that change it: the
 * number field and the effect that fills it, the customer fields, the line
 * items, the service charge, and the submission that resets the form once
 * the backend has accepted it.  Text typed into a numeric field goes
 * through `parseInt(text) || 0` or `parseFloat(text) || 0`.
 */
module FormState {
  import opened Wrappers
  import opened InvoiceData
  import opened JsBuiltins
  import opened LineItems
  import ClientTotals
  import InvoiceNumber
  import InvoiceApi

  /** The customer a fresh form starts with: every field empty. */
  const BlankCustomer := Customer("", "", Some(""), Some(""), Some(""))

  /** The service charge a fresh form starts with. */
  const DefaultServiceCharge := ServiceCharge("Service Charges", 0.0, 18.0, 0.0)

  /** `parseInt(text) || 0`: the parsed integer, or 0 when nothing parses. */
  function QuantityInput(text: string): (q: int)
    ensures ParseInt(text).Some? ==> q == ParseInt(text).value
    ensures ParseInt(text).None? ==> q == 0
  {
    ParseInt(text).GetOr(0)
  }

  /** `parseFloat(text) || 0`: the parsed number, or 0 when nothing parses. */
  function NumberInput(text: string): (x: real)
    ensures ParseFloat(text).Some? ==> x == ParseFloat(text).value
    ensures ParseFloat(text).None? ==> x == 0.0
  {
    ParseFloat(text).GetOr(0.0)
  }

  /** Text that does not start with a number reads as 0 in every numeric
      field. */
  lemma NonNumericInputIsZero(text: string)
    requires var u := Unsigned(TrimStart(text)); u == [] || (!IsDecimalDigit(u[0]) && u[0] != '.')
    ensures QuantityInput(text) == 0 && NumberInput(text) == 0.0
  {
    ParseOfNonNumeric(text);
  }

  /** A quantity the field itself displays reads back as that quantity. */
  lemma DisplayedQuantityReadsBack(n: int)
    ensures QuantityInput(IntToString(n)) == n
  {
    ParseIntOfIntToString(n);
  }

  /** A whole number such as "12" reads as its value in a rate or amount
      field. */
  lemma IntegerInputValue(digits: string)
    requires digits != [] && AllDecimalDigits(digits)
    ensures AllRadixDigits(digits, 10)
    ensures NumberInput(digits) == RadixValue(digits, 10) as real
  {
    ParseFloatOfDigits(digits);
  }

  /** A negative whole number such as "-3" reads as its value. */
  lemma NegativeIntegerInputValue(digits: string)
    requires digits != [] && AllDecimalDigits(digits)
    ensures AllRadixDigits(digits, 10)
    ensures NumberInput("-" + digits) == -(RadixValue(digits, 10) as real)
  {
    ParseFloatOfNegativeDigits(digits);
  }

  /** A decimal such as "12.50" reads as its value. */
  lemma DecimalInputValue(whole: string, frac: string)
    requires whole != [] && AllDecimalDigits(whole) && AllDecimalDigits(frac)
    ensures AllRadixDigits(whole, 10) && AllRadixDigits(frac, 10)
    ensures NumberInput(whole + "." + frac)
         == RadixValue(whole, 10) as real + RadixValue(frac, 10) as real / Pow10(|frac|)
  {
    ParseFloatOfDecimal(whole, frac);
  }

  /** The customer fields the form edits. */
  datatype CustomerField = Name | Address | GstNumber | Phone | Email

  /** `{...customer, <field>: text}`. */
  function WithCustomerField(c: Customer, field: CustomerField, text: string): (r: Customer)
    ensures r.name == (if field == Name then text else c.name)
    ensures r.address == (if field == Address then text else c.address)
    ensures r.gstNumber == (if field == GstNumber then Some(text) else c.gstNumber)
    ensures r.phone == (if field == Phone then Some(text) else c.phone)
    ensures r.email == (if field == Email then Some(text) else c.email)
  {
    match field
    case Name => c.(name := text)
    case Address => c.(address := text)
    case GstNumber => c.(gstNumber := Some(text))
    case Phone => c.(phone := Some(text))
    case Email => c.(email := Some(text))
  }

  /** The `InvoiceForm` component's state. */
  class InvoiceForm {
    var invoiceNumber: string
    var customer: Customer
    var lineItems: seq<LineItem>
    var serviceCharge: ServiceCharge
    var isSubmitting: bool

    /** The line items keep their invariant: at least one line, and every
        amount equal to quantity * rate. */
    predicate Valid()
      reads this
    {
      DraftInvariant(lineItems)
    }

    /** The initial state of every `useState`. */
    constructor ()
      ensures invoiceNumber == "" && customer == BlankCustomer
      ensures lineItems == [DefaultLineItem] && serviceCharge == DefaultServiceCharge
      ensures !isSubmitting
      ensures Valid()
    {
      invoiceNumber := "";
      customer := BlankCustomer;
      lineItems := [DefaultLineItem];
      serviceCharge := DefaultServiceCharge;
      isSubmitting := false;
      InitialDraftInvariant();
    }

    /** `calculateTotals()` on the current state. */
    function Totals(): (t: InvoiceData.Totals)
      reads this
      ensures TotalsFor(t, lineItems, serviceCharge)
    {
      ClientTotals.CalculateTotals(lineItems, serviceCharge)
    }

    /** The body `handleSubmit` posts. */
    function Payload(): InvoiceCreate
      reads this
    {
      InvoiceCreate(invoiceNumber, customer, lineItems, serviceCharge)
    }

    /** Typing into the invoice number field. */
    method SetInvoiceNumber(text: string)
      modifies this
      ensures invoiceNumber == text
      ensures customer == old(customer) && lineItems == old(lineItems)
      ensures serviceCharge == old(serviceCharge) && isSubmitting == old(isSubmitting)
    {
      invoiceNumber := text;
    }

    /** The `useEffect` on `invoiceNumber`: an empty number is replaced by a
        generated one; any other number is kept. */
    method RunInvoiceNumberEffect(today: InvoiceNumber.LocalDate, random: real)
      requires InvoiceNumber.ValidLocalDate(today) && 0.0 <= random < 1.0
      modifies this
      ensures invoiceNumber == InvoiceNumber.NextInvoiceNumber(old(invoiceNumber), today, random)
      ensures invoiceNumber != ""
      ensures old(invoiceNumber) != "" ==> invoiceNumber == old(invoiceNumber)
      ensures customer == old(customer) && lineItems == old(lineItems)
      ensures serviceCharge == old(serviceCharge) && isSubmitting == old(isSubmitting)
    {
      invoiceNumber := InvoiceNumber.NextInvoiceNumber(invoiceNumber, today, random);
    }

    /** Typing into one of the customer fields. */
    method SetCustomerField(field: CustomerField, text: string)
      modifies this
      ensures customer == WithCustomerField(old(customer), field, text)
      ensures invoiceNumber == old(invoiceNumber) && lineItems == old(lineItems)
      ensures serviceCharge == old(serviceCharge) && isSubmitting == old(isSubmitting)
    {
      customer := WithCustomerField(customer, field, text);
    }

    /** `updateLineItemAmount(index, field, value)` followed by
        `setLineItems`; an index outside the list throws, and the state is
        left as it was. */
    method EditLineItem(index: int, edit: Edit) returns (ok: bool)
      modifies this
      ensures ok <==> 0 <= index < |old(lineItems)|
      ensures ok ==> lineItems == old(lineItems)[index := EditedItem(old(lineItems)[index], edit)]
      ensures !ok ==> lineItems == old(lineItems)
      ensures invoiceNumber == old(invoiceNumber) && customer == old(customer)
      ensures serviceCharge == old(serviceCharge) && isSubmitting == old(isSubmitting)
      ensures old(Valid()) ==> Valid()
    {
      var newLineItems;
      newLineItems, ok := UpdateLineItemAmount(lineItems, index, edit);
      if ok {
        assert newLineItems == lineItems[index := EditedItem(lineItems[index], edit)];
        if Valid() {
          EditKeepsDraftInvariant(lineItems, index, edit);
        }
        lineItems := newLineItems;
      }
    }

    /** The quantity input: the coerced number becomes the quantity and the
        amount follows. */
    method OnQuantityInput(index: int, text: string) returns (ok: bool)
      modifies this
      ensures ok <==> 0 <= index < |old(lineItems)|
      ensures ok ==> lineItems == old(lineItems)[index := EditedItem(old(lineItems)[index], Quantity(QuantityInput(text)))]
      ensures ok ==> lineItems[index].quantity == QuantityInput(text) && AmountConsistent(lineItems[index])
      ensures !ok ==> lineItems == old(lineItems)
      ensures invoiceNumber == old(invoiceNumber) && customer == old(customer)
      ensures serviceCharge == old(serviceCharge) && isSubmitting == old(isSubmitting)
      ensures old(Valid()) ==> Valid()
    {
      ok := EditLineItem(index, Quantity(QuantityInput(text)));
    }

    /** The rate input: the coerced number becomes the rate and the amount
        follows. */
    method OnRateInput(index: int, text: string) returns (ok: bool)
      modifies this
      ensures ok <==> 0 <= index < |old(lineItems)|
      ensures ok ==> lineItems == old(lineItems)[index := EditedItem(old(lineItems)[index], Rate(NumberInput(text)))]
      ensures ok ==> lineItems[index].rate == NumberInput(text) && AmountConsistent(lineItems[index])
      ensures !ok ==> lineItems == old(lineItems)
      ensures invoiceNumber == old(invoiceNumber) && customer == old(customer)
      ensures serviceCharge == old(serviceCharge) && isSubmitting == old(isSubmitting)
      ensures old(Valid()) ==> Valid()
    {
      ok := EditLineItem(index, Rate(NumberInput(text)));
    }

    /** "Add Line Item". */
    method AddLineItem()
      modifies this
      ensures lineItems == LineItems.AddLineItem(old(lineItems))
      ensures invoiceNumber == old(invoiceNumber) && customer == old(customer)
      ensures serviceCharge == old(serviceCharge) && isSubmitting == old(isSubmitting)
      ensures old(Valid()) ==> Valid()
    {
      if Valid() {
        AddKeepsDraftInvariant(lineItems);
      }
      lineItems := LineItems.AddLineItem(lineItems);
    }

    /** The trash button of line `index`. */
    method RemoveLineItem(index: int)
      modifies this
      ensures lineItems == LineItems.RemoveLineItem(old(lineItems), index)
      ensures invoiceNumber == old(invoiceNumber) && customer == old(customer)
      ensures serviceCharge == old(serviceCharge) && isSubmitting == old(isSubmitting)
      ensures old(Valid()) ==> Valid()
    {
      if Valid() {
        RemoveKeepsDraftInvariant(lineItems, index);
      }
      lineItems := LineItems.RemoveLineItem(lineItems, index);
    }

    /** The service description input. */
    method SetServiceDescription(text: string)
      modifies this
      ensures serviceCharge == old(serviceCharge).(description := text)
      ensures invoiceNumber == old(invoiceNumber) && customer == old(customer)
      ensures lineItems == old(lineItems) && isSubmitting == old(isSubmitting)
    {
      serviceCharge := serviceCharge.(description := text);
    }

    /** The service amount input, coerced like the rate. */
    method OnServiceAmountInput(text: string)
      modifies this
      ensures serviceCharge == old(serviceCharge).(amount := NumberInput(text))
      ensures invoiceNumber == old(invoiceNumber) && customer == old(customer)
      ensures lineItems == old(lineItems) && isSubmitting == old(isSubmitting)
    {
      serviceCharge := serviceCharge.(amount := NumberInput(text));
    }

    /** The GST rate input, coerced like the rate. */
    method OnGstRateInput(text: string)
      modifies this
      ensures serviceCharge == old(serviceCharge).(gstRate := NumberInput(text))
      ensures invoiceNumber == old(invoiceNumber) && customer == old(customer)
      ensures lineItems == old(lineItems) && isSubmitting == old(isSubmitting)
    {
      serviceCharge := serviceCharge.(gstRate := NumberInput(text));
    }

    /** `handleSubmit`: posts the payload; when the post succeeds, every
        field goes back to its initial value, otherwise the state is kept;
        in both cases the form is no longer submitting.  The backend
        computes the same totals the form showed. */
    method Submit(postSucceeded: bool) returns (sent: InvoiceCreate)
      modifies this
      ensures sent == InvoiceCreate(old(invoiceNumber), old(customer), old(lineItems), old(serviceCharge))
      ensures InvoiceApi.CreateTotals(sent) == ClientTotals.CalculateTotals(old(lineItems), old(serviceCharge))
      ensures postSucceeded ==> invoiceNumber == "" && customer == BlankCustomer
      ensures postSucceeded ==> lineItems == [DefaultLineItem] && serviceCharge == DefaultServiceCharge
      ensures !postSucceeded ==> invoiceNumber == old(invoiceNumber) && customer == old(customer)
      ensures !postSucceeded ==> lineItems == old(lineItems) && serviceCharge == old(serviceCharge)
      ensures !isSubmitting
      ensures postSucceeded || old(Valid()) ==> Valid()
    {
      isSubmitting := true;
      sent := Payload();
      InvoiceApi.ServerTotalsMatchClient(sent);
      if postSucceeded {
        Reset();
      }
      isSubmitting := false;
    }

    /** The state setters after a successful post: the initial values. */
    method Reset()
      modifies this
      ensures invoiceNumber == "" && customer == BlankCustomer
      ensures lineItems == [DefaultLineItem] && serviceCharge == DefaultServiceCharge
      ensures isSubmitting == old(isSubmitting)
      ensures Valid()
    {
      invoiceNumber := "";
      customer := BlankCustomer;
      lineItems := [DefaultLineItem];
      serviceCharge := DefaultServiceCharge;
      InitialDraftInvariant();
    }
  }

  /** A quantity typed as non-numeric text gives an amount of 0. */
  lemma NonNumericQuantityGivesZeroAmount(item: LineItem, text: string)
    requires var u := Unsigned(TrimStart(text)); u == [] || (!IsDecimalDigit(u[0]) && u[0] != '.')
    ensures EditedItem(item, Quantity(QuantityInput(text))).amount == 0.0
  {
    NonNumericInputIsZero(text);
  }
}
