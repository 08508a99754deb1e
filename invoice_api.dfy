/**
 * The invoice endpoints of the backend.  `create_invoice` recomputes the
 * totals from the submitted line amounts and service charge, overwrites
 * the service charge's GST amount, stamps a new id and two timestamps,
 * and stores the prepared document; `get_invoice` and `delete_invoice`
 * address a document by its "id" field.  The collection is a sequence of
 * documents in insertion order; the id, the clock, `isoformat` /
 * `fromisoformat` and whether the database call succeeds are parameters.
 */
module InvoiceApi {
  import opened Wrappers
  import opened InvoiceData
  import opened MongoJson
  import ClientTotals

  /** The stored record, the backend's `Invoice` model. */
  datatype Invoice = Invoice(
    id: string,
    invoiceNumber: string,
    date: DateTime,
    customer: Customer,
    lineItems: seq<LineItem>,
    serviceCharges: ServiceCharge,
    totals: Totals,
    createdAt: DateTime)

  // ------------------------------------------------------------ the totals

  /** Python's `sum(xs)`: the numbers added left to right, starting at 0. */
  function Sum(xs: seq<real>): real
  {
    SumFrom(0.0, xs)
  }

  function SumFrom(acc: real, xs: seq<real>): real
    decreases |xs|
  {
    if xs == [] then acc else SumFrom(acc + xs[0], xs[1..])
  }

  /** The generator `item.amount for item in line_items`. */
  function Amounts(items: seq<LineItem>): seq<real>
  {
    seq(|items|, i requires 0 <= i < |items| => items[i].amount)
  }

  /** Adding the amounts left to right is their sum. */
  lemma {:induction false} SumFromAmounts(acc: real, items: seq<LineItem>)
    decreases |items|
    ensures SumFrom(acc, Amounts(items)) == acc + SumAmounts(items)
  {
    if items != [] {
      assert Amounts(items)[1..] == Amounts(items[1..]);
      SumFromAmounts(acc + items[0].amount, items[1..]);
    }
  }

  /** The totals `create_invoice` computes: the sum of the submitted
      amounts, the service amount, GST on the service amount at its rate,
      and the grand total. */
  function CreateTotals(data: InvoiceCreate): (t: Totals)
    ensures TotalsFor(t, data.lineItems, data.serviceCharges)
  {
    var subtotal := Sum(Amounts(data.lineItems));
    SumFromAmounts(0.0, data.lineItems);
    var serviceCharge := data.serviceCharges.amount;
    var gstOnService := (serviceCharge * data.serviceCharges.gstRate) / 100.0;
    Totals(subtotal, serviceCharge, gstOnService, subtotal + serviceCharge + gstOnService)
  }

  /** The server's totals are the ones the form shows for the same lines
      and service charge. */
  lemma ServerTotalsMatchClient(data: InvoiceCreate)
    ensures CreateTotals(data) == ClientTotals.CalculateTotals(data.lineItems, data.serviceCharges)
  {
    TotalsForUnique(CreateTotals(data), ClientTotals.CalculateTotals(data.lineItems, data.serviceCharges),
                    data.lineItems, data.serviceCharges);
  }

  /** The subtotal trusts the submitted amounts: it equals the sum of
      quantity * rate when every line is consistent, and a line whose amount
      disagrees with its quantity and rate is summed by its amount. */
  lemma SubtotalUsesSubmittedAmounts(data: InvoiceCreate)
    ensures AllAmountsConsistent(data.lineItems) ==> CreateTotals(data).subtotal == SumExtended(data.lineItems)
    ensures CreateTotals(InvoiceCreate("X", data.customer, [LineItem("x", 2, 100.0, 1.0)], data.serviceCharges)).subtotal == 1.0
  {
    if AllAmountsConsistent(data.lineItems) {
      SumOfConsistentItems(data.lineItems);
    }
  }

  /** The invoice `create_invoice` builds: the request's fields, the service
      charge with its GST amount replaced by the computed GST, the computed
      totals, and the given id and timestamps. */
  function BuildInvoice(data: InvoiceCreate, id: string, date: DateTime, createdAt: DateTime): (inv: Invoice)
    ensures TotalsFor(inv.totals, data.lineItems, data.serviceCharges)
    ensures inv.serviceCharges == data.serviceCharges.(gstAmount := inv.totals.gstOnService)
    ensures inv.invoiceNumber == data.invoiceNumber && inv.customer == data.customer
    ensures inv.lineItems == data.lineItems
    ensures inv.id == id && inv.date == date && inv.createdAt == createdAt
  {
    var totals := CreateTotals(data);
    var charges := data.serviceCharges.(gstAmount := totals.gstOnService);
    Invoice(id, data.invoiceNumber, date, data.customer, data.lineItems, charges, totals, createdAt)
  }

  /** The request of the backend test: lines of 200 and 150, a service
      charge of 50 at 18% sent with a GST amount of 0.  The invoice has
      totals 350 / 50 / 9 / 409 and a GST amount of 9. */
  lemma BackendTestExample(customer: Customer, id: string, date: DateTime, createdAt: DateTime)
    ensures var data := InvoiceCreate("TEST-INV", customer,
                                      [LineItem("Product 1", 2, 100.0, 200.0), LineItem("Product 2", 1, 150.0, 150.0)],
                                      ServiceCharge("Service Charges", 50.0, 18.0, 0.0));
            var inv := BuildInvoice(data, id, date, createdAt);
            && inv.totals == Totals(350.0, 50.0, 9.0, 409.0)
            && inv.serviceCharges.gstAmount == 9.0
  {
  }

  // --------------------------------------------------- the stored document

  function OptString(s: Option<string>): Json
  {
    match s
    case Some(v) => JStr(v)
    case None => JNull
  }

  /** `invoice.dict()`: the fields in declaration order, under their
      Python names. */
  function EncodeInvoice(inv: Invoice): Json
  {
    JDict([
      Entry("id", JStr(inv.id)),
      Entry("invoice_number", JStr(inv.invoiceNumber)),
      Entry("date", JDateTime(inv.date)),
      Entry("customer", EncodeCustomer(inv.customer)),
      Entry("line_items", JList(EncodeLineItems(inv.lineItems))),
      Entry("service_charges", EncodeServiceCharge(inv.serviceCharges)),
      Entry("totals", EncodeTotals(inv.totals)),
      Entry("created_at", JDateTime(inv.createdAt))])
  }

  function EncodeCustomer(c: Customer): Json
  {
    JDict([
      Entry("name", JStr(c.name)),
      Entry("address", JStr(c.address)),
      Entry("gst_number", OptString(c.gstNumber)),
      Entry("phone", OptString(c.phone)),
      Entry("email", OptString(c.email))])
  }

  function EncodeLineItem(item: LineItem): Json
  {
    JDict([
      Entry("description", JStr(item.description)),
      Entry("quantity", JInt(item.quantity)),
      Entry("rate", JFloat(item.rate)),
      Entry("amount", JFloat(item.amount))])
  }

  function EncodeLineItems(items: seq<LineItem>): seq<Json>
  {
    seq(|items|, i requires 0 <= i < |items| => EncodeLineItem(items[i]))
  }

  function EncodeServiceCharge(s: ServiceCharge): Json
  {
    JDict([
      Entry("description", JStr(s.description)),
      Entry("amount", JFloat(s.amount)),
      Entry("gst_rate", JFloat(s.gstRate)),
      Entry("gst_amount", JFloat(s.gstAmount))])
  }

  function EncodeTotals(t: Totals): Json
  {
    JDict([
      Entry("subtotal", JFloat(t.subtotal)),
      Entry("service_charge", JFloat(t.serviceCharge)),
      Entry("gst_on_service", JFloat(t.gstOnService)),
      Entry("grand_total", JFloat(t.grandTotal))])
  }

  /** The value under `key` of a dict. */
  function Field(data: Json, key: string): Option<Json>
  {
    if data.JDict? then Get(data.entries, key) else None
  }

  /** Looking a key up in a dict of four, five or eight entries. */
  lemma GetIn4(e: seq<Entry>, k: string)
    requires |e| == 4
    ensures Get(e, k) == if e[0].key == k then Some(e[0].value) else if e[1].key == k then Some(e[1].value)
                         else if e[2].key == k then Some(e[2].value) else if e[3].key == k then Some(e[3].value)
                         else None
  {
    assert FindFrom(e, k, 4) == None;
    assert FindFrom(e, k, 3) == if e[3].key == k then Some(3) else None;
    assert FindFrom(e, k, 2) == if e[2].key == k then Some(2) else FindFrom(e, k, 3);
    assert FindFrom(e, k, 1) == if e[1].key == k then Some(1) else FindFrom(e, k, 2);
  }

  lemma GetIn5(e: seq<Entry>, k: string)
    requires |e| == 5
    ensures Get(e, k) == if e[0].key == k then Some(e[0].value) else Get(e[1..], k)
    ensures Get(e[1..], k) == if e[1].key == k then Some(e[1].value) else if e[2].key == k then Some(e[2].value)
                              else if e[3].key == k then Some(e[3].value) else if e[4].key == k then Some(e[4].value)
                              else None
  {
    GetIn4(e[1..], k);
    ShiftFind(e, k, 1);
  }

  lemma GetIn8(e: seq<Entry>, k: string)
    requires |e| == 8
    ensures Get(e, k) == if e[0].key == k then Some(e[0].value) else if e[1].key == k then Some(e[1].value)
                         else if e[2].key == k then Some(e[2].value) else if e[3].key == k then Some(e[3].value)
                         else Get(e[4..], k)
    ensures Get(e[4..], k) == if e[4].key == k then Some(e[4].value) else if e[5].key == k then Some(e[5].value)
                              else if e[6].key == k then Some(e[6].value) else if e[7].key == k then Some(e[7].value)
                              else None
  {
    GetIn4(e[4..], k);
    ShiftFind(e, k, 4);
    assert FindFrom(e, k, 3) == if e[3].key == k then Some(3) else FindFrom(e, k, 4);
    assert FindFrom(e, k, 2) == if e[2].key == k then Some(2) else FindFrom(e, k, 3);
    assert FindFrom(e, k, 1) == if e[1].key == k then Some(1) else FindFrom(e, k, 2);
  }

  /** Searching from position `n` is searching the suffix from its start. */
  lemma {:induction false} ShiftFind(e: seq<Entry>, k: string, n: nat)
    requires n <= |e|
    ensures FindFrom(e, k, n) == match FindIndex(e[n..], k) case Some(i) => Some(i + n) case None => None
  {
    ShiftFindFrom(e, k, n, 0);
  }

  lemma {:induction false} ShiftFindFrom(e: seq<Entry>, k: string, n: nat, m: nat)
    requires n + m <= |e|
    decreases |e| - n - m
    ensures FindFrom(e, k, n + m) == match FindFrom(e[n..], k, m) case Some(i) => Some(i + n) case None => None
  {
    if n + m < |e| {
      ShiftFindFrom(e, k, n, m + 1);
    }
  }

  /** The model's field validation: a `str` takes a string, an `int` an
      integer, a `float` a float or an integer, a `datetime` a datetime,
      and an `Optional[str]` also takes null or a missing key. */
  function AsString(j: Option<Json>): Option<string>
  {
    if j.Some? && j.value.JStr? then Some(j.value.s) else None
  }

  function AsOptString(j: Option<Json>): Option<Option<string>>
  {
    match j
    case None => Some(None)
    case Some(JNull) => Some(None)
    case Some(JStr(s)) => Some(Some(s))
    case Some(_) => None
  }

  function AsInt(j: Option<Json>): Option<int>
  {
    if j.Some? && j.value.JInt? then Some(j.value.i) else None
  }

  function AsFloat(j: Option<Json>): Option<real>
  {
    match j
    case Some(JFloat(x)) => Some(x)
    case Some(JInt(i)) => Some(i as real)
    case _ => None
  }

  function AsDateTime(j: Option<Json>): Option<DateTime>
  {
    if j.Some? && j.value.JDateTime? then Some(j.value.d) else None
  }

  function DecodeCustomer(j: Json): Option<Customer>
  {
    var name := AsString(Field(j, "name"));
    var address := AsString(Field(j, "address"));
    var gstNumber := AsOptString(Field(j, "gst_number"));
    var phone := AsOptString(Field(j, "phone"));
    var email := AsOptString(Field(j, "email"));
    if name.Some? && address.Some? && gstNumber.Some? && phone.Some? && email.Some? then
      Some(Customer(name.value, address.value, gstNumber.value, phone.value, email.value))
    else None
  }

  function DecodeLineItem(j: Json): Option<LineItem>
  {
    var description := AsString(Field(j, "description"));
    var quantity := AsInt(Field(j, "quantity"));
    var rate := AsFloat(Field(j, "rate"));
    var amount := AsFloat(Field(j, "amount"));
    if description.Some? && quantity.Some? && rate.Some? && amount.Some? then
      Some(LineItem(description.value, quantity.value, rate.value, amount.value))
    else None
  }

  function DecodeLineItems(items: seq<Json>): Option<seq<LineItem>>
  {
    if items == [] then Some([])
    else
      var first := DecodeLineItem(items[0]);
      var rest := DecodeLineItems(items[1..]);
      if first.Some? && rest.Some? then Some([first.value] + rest.value) else None
  }

  function DecodeServiceCharge(j: Json): Option<ServiceCharge>
  {
    var description := AsString(Field(j, "description"));
    var amount := AsFloat(Field(j, "amount"));
    var gstRate := AsFloat(Field(j, "gst_rate"));
    var gstAmount := AsFloat(Field(j, "gst_amount"));
    if description.Some? && amount.Some? && gstRate.Some? && gstAmount.Some? then
      Some(ServiceCharge(description.value, amount.value, gstRate.value, gstAmount.value))
    else None
  }

  function DecodeTotals(j: Json): Option<Totals>
  {
    var subtotal := AsFloat(Field(j, "subtotal"));
    var serviceCharge := AsFloat(Field(j, "service_charge"));
    var gst := AsFloat(Field(j, "gst_on_service"));
    var grandTotal := AsFloat(Field(j, "grand_total"));
    if subtotal.Some? && serviceCharge.Some? && gst.Some? && grandTotal.Some? then
      Some(Totals(subtotal.value, serviceCharge.value, gst.value, grandTotal.value))
    else None
  }

  /** `Invoice(**doc)`: every field validated; keys the model does not
      declare are ignored. */
  function DecodeInvoice(j: Json): Option<Invoice>
  {
    var id := AsString(Field(j, "id"));
    var invoiceNumber := AsString(Field(j, "invoice_number"));
    var date := AsDateTime(Field(j, "date"));
    var customer := if Field(j, "customer").Some? then DecodeCustomer(Field(j, "customer").value) else None;
    var lineItems := if Field(j, "line_items").Some? && Field(j, "line_items").value.JList?
                     then DecodeLineItems(Field(j, "line_items").value.items) else None;
    var charges := if Field(j, "service_charges").Some? then DecodeServiceCharge(Field(j, "service_charges").value) else None;
    var totals := if Field(j, "totals").Some? then DecodeTotals(Field(j, "totals").value) else None;
    var createdAt := AsDateTime(Field(j, "created_at"));
    if id.Some? && invoiceNumber.Some? && date.Some? && customer.Some? && lineItems.Some?
       && charges.Some? && totals.Some? && createdAt.Some?
    then Some(Invoice(id.value, invoiceNumber.value, date.value, customer.value, lineItems.value,
                      charges.value, totals.value, createdAt.value))
    else None
  }

  lemma DecodeEncodeCustomer(c: Customer)
    ensures DecodeCustomer(EncodeCustomer(c)) == Some(c)
  {
    CustomerFields(c);
    AsOptStringOfOptString(c.gstNumber);
    AsOptStringOfOptString(c.phone);
    AsOptStringOfOptString(c.email);
  }

  /** Each customer field sits under its own key. */
  lemma CustomerFields(c: Customer)
    ensures Field(EncodeCustomer(c), "name") == Some(JStr(c.name))
    ensures Field(EncodeCustomer(c), "address") == Some(JStr(c.address))
    ensures Field(EncodeCustomer(c), "gst_number") == Some(OptString(c.gstNumber))
    ensures Field(EncodeCustomer(c), "phone") == Some(OptString(c.phone))
    ensures Field(EncodeCustomer(c), "email") == Some(OptString(c.email))
  {
    var e := EncodeCustomer(c).entries;
    GetIn5(e, "name");
    GetIn5(e, "address");
    GetIn5(e, "gst_number");
    GetIn5(e, "phone");
    GetIn5(e, "email");
  }

  /** An optional string reads back from its encoding, `null` for `None`. */
  lemma AsOptStringOfOptString(o: Option<string>)
    ensures AsOptString(Some(OptString(o))) == Some(o)
  {
  }

  lemma DecodeEncodeLineItem(item: LineItem)
    ensures DecodeLineItem(EncodeLineItem(item)) == Some(item)
  {
    var e := EncodeLineItem(item).entries;
    GetIn4(e, "description");
    GetIn4(e, "quantity");
    GetIn4(e, "rate");
    GetIn4(e, "amount");
  }

  lemma {:induction false} DecodeEncodeLineItems(items: seq<LineItem>)
    ensures DecodeLineItems(EncodeLineItems(items)) == Some(items)
  {
    if items != [] {
      assert EncodeLineItems(items)[1..] == EncodeLineItems(items[1..]);
      DecodeEncodeLineItems(items[1..]);
      DecodeEncodeLineItem(items[0]);
      assert [items[0]] + items[1..] == items;
    }
  }

  lemma DecodeEncodeServiceCharge(charge: ServiceCharge)
    ensures DecodeServiceCharge(EncodeServiceCharge(charge)) == Some(charge)
  {
    var e := EncodeServiceCharge(charge).entries;
    GetIn4(e, "description");
    GetIn4(e, "amount");
    GetIn4(e, "gst_rate");
    GetIn4(e, "gst_amount");
  }

  lemma DecodeEncodeTotals(t: Totals)
    ensures DecodeTotals(EncodeTotals(t)) == Some(t)
  {
    var e := EncodeTotals(t).entries;
    GetIn4(e, "subtotal");
    GetIn4(e, "service_charge");
    GetIn4(e, "gst_on_service");
    GetIn4(e, "grand_total");
  }

  /** The fields of an invoice's dict. */
  lemma InvoiceFieldsHead(inv: Invoice)
    ensures Field(EncodeInvoice(inv), "id") == Some(JStr(inv.id))
    ensures Field(EncodeInvoice(inv), "invoice_number") == Some(JStr(inv.invoiceNumber))
    ensures Field(EncodeInvoice(inv), "date") == Some(JDateTime(inv.date))
    ensures Field(EncodeInvoice(inv), "customer") == Some(EncodeCustomer(inv.customer))
  {
    var e := EncodeInvoice(inv).entries;
    assert Field(EncodeInvoice(inv), "id") == Some(JStr(inv.id)) by { GetIn8(e, "id"); }
    assert Field(EncodeInvoice(inv), "invoice_number") == Some(JStr(inv.invoiceNumber)) by { GetIn8(e, "invoice_number"); }
    assert Field(EncodeInvoice(inv), "date") == Some(JDateTime(inv.date)) by { GetIn8(e, "date"); }
    assert Field(EncodeInvoice(inv), "customer") == Some(EncodeCustomer(inv.customer)) by { GetIn8(e, "customer"); }
  }

  lemma InvoiceFieldsTail(inv: Invoice)
    ensures Field(EncodeInvoice(inv), "line_items") == Some(JList(EncodeLineItems(inv.lineItems)))
    ensures Field(EncodeInvoice(inv), "service_charges") == Some(EncodeServiceCharge(inv.serviceCharges))
    ensures Field(EncodeInvoice(inv), "totals") == Some(EncodeTotals(inv.totals))
    ensures Field(EncodeInvoice(inv), "created_at") == Some(JDateTime(inv.createdAt))
  {
    var e := EncodeInvoice(inv).entries;
    assert Field(EncodeInvoice(inv), "line_items") == Some(JList(EncodeLineItems(inv.lineItems))) by { GetIn8(e, "line_items"); }
    assert Field(EncodeInvoice(inv), "service_charges") == Some(EncodeServiceCharge(inv.serviceCharges)) by { GetIn8(e, "service_charges"); }
    assert Field(EncodeInvoice(inv), "totals") == Some(EncodeTotals(inv.totals)) by { GetIn8(e, "totals"); }
    assert Field(EncodeInvoice(inv), "created_at") == Some(JDateTime(inv.createdAt)) by { GetIn8(e, "created_at"); }
  }

  /** Validating the dict of an invoice gives the invoice back. */
  lemma DecodeEncode(inv: Invoice)
    ensures DecodeInvoice(EncodeInvoice(inv)) == Some(inv)
  {
    InvoiceFieldsHead(inv);
    InvoiceFieldsTail(inv);
    DecodeEncodeCustomer(inv.customer);
    DecodeEncodeLineItems(inv.lineItems);
    DecodeEncodeServiceCharge(inv.serviceCharges);
    DecodeEncodeTotals(inv.totals);
    DecodeFromFields(EncodeInvoice(inv), inv);
  }

  /** A dict whose fields decode to the parts of `inv` decodes to `inv`. */
  lemma DecodeFromFields(j: Json, inv: Invoice)
    requires Field(j, "id") == Some(JStr(inv.id))
    requires Field(j, "invoice_number") == Some(JStr(inv.invoiceNumber))
    requires Field(j, "date") == Some(JDateTime(inv.date))
    requires Field(j, "customer").Some? && DecodeCustomer(Field(j, "customer").value) == Some(inv.customer)
    requires Field(j, "line_items").Some? && Field(j, "line_items").value.JList?
    requires DecodeLineItems(Field(j, "line_items").value.items) == Some(inv.lineItems)
    requires Field(j, "service_charges").Some?
    requires DecodeServiceCharge(Field(j, "service_charges").value) == Some(inv.serviceCharges)
    requires Field(j, "totals").Some? && DecodeTotals(Field(j, "totals").value) == Some(inv.totals)
    requires Field(j, "created_at") == Some(JDateTime(inv.createdAt))
    ensures DecodeInvoice(j) == Some(inv)
  {
  }

  /** An invoice's dict holds datetimes only under "date" and "created_at"
      and no string there, so the store round trip gives it back. */
  lemma EncodedInvoiceIsLossless(inv: Invoice)
    ensures Lossless(EncodeInvoice(inv))
  {
    var e := EncodeInvoice(inv).entries;
    var items := EncodeLineItems(inv.lineItems);
    assert Lossless(EncodeCustomer(inv.customer));
    assert Lossless(EncodeServiceCharge(inv.serviceCharges));
    assert Lossless(EncodeTotals(inv.totals));
    assert forall i :: 0 <= i < |items| ==> Lossless(items[i]);
    assert "date" in DateKeys && "created_at" in DateKeys;
    assert forall i :: 0 <= i < |e| ==> LosslessEntry(e[i].key, e[i].value);
  }

  /** The document `create_invoice` inserts. */
  function StoredDocument(iso: DateTime -> string, inv: Invoice): Json
  {
    PrepareForMongo(iso, EncodeInvoice(inv))
  }

  /** The stored document keeps the invoice's id in its "id" field. */
  lemma StoredId(iso: DateTime -> string, inv: Invoice)
    ensures IdOf(StoredDocument(iso, inv)) == Some(inv.id)
  {
    var e := EncodeInvoice(inv).entries;
    var stored := StoredDocument(iso, inv).entries;
    assert stored[0] == Entry(e[0].key, PrepareValue(iso, e[0].value));
    assert FindIndex(stored, "id") == Some(0);
  }

  /** Loading a stored invoice gives the invoice back. */
  lemma LoadStoredDocument(iso: DateTime -> string, fromIso: string -> Option<DateTime>, inv: Invoice)
    requires InverseCodec(iso, fromIso)
    ensures DecodeInvoice(ParseFromMongo(fromIso, StoredDocument(iso, inv))) == Some(inv)
  {
    EncodedInvoiceIsLossless(inv);
    RoundTrip(iso, fromIso, EncodeInvoice(inv));
    DecodeEncode(inv);
  }

  // ------------------------------------------------------------ the store

  /** The "id" of a document, when it is a string. */
  function IdOf(doc: Json): Option<string>
  {
    AsString(Field(doc, "id"))
  }

  /** The position of the first document matching `{"id": id}`. */
  function FindOneIndex(store: seq<Json>, id: string): (r: Option<nat>)
    ensures r.Some? ==> r.value < |store| && IdOf(store[r.value]) == Some(id)
    ensures r.Some? ==> forall j :: 0 <= j < r.value ==> IdOf(store[j]) != Some(id)
    ensures r.None? <==> forall j :: 0 <= j < |store| ==> IdOf(store[j]) != Some(id)
  {
    if store == [] then None
    else if IdOf(store[0]) == Some(id) then Some(0)
    else match FindOneIndex(store[1..], id)
      case Some(i) => Some(i + 1)
      case None => None
  }

  /** `delete_one({"id": id})`: the collection without the first match, and
      the deleted count. */
  function DeleteOne(store: seq<Json>, id: string): (r: (seq<Json>, nat))
    ensures r.1 <= 1 && (r.1 == 0 <==> FindOneIndex(store, id).None?)
    ensures r.1 == 0 ==> r.0 == store
    ensures r.1 == 1 ==> var i := FindOneIndex(store, id).value; r.0 == store[..i] + store[i + 1..]
  {
    match FindOneIndex(store, id)
    case None => (store, 0)
    case Some(i) => (store[..i] + store[i + 1..], 1)
  }

  /** No two documents carry the same id. */
  predicate UniqueIds(store: seq<Json>)
  {
    forall i, j :: 0 <= i < j < |store| && IdOf(store[i]).Some? ==> IdOf(store[i]) != IdOf(store[j])
  }

  // ------------------------------------------------------------ responses

  /** What the client receives: the body, or an error status. */
  datatype Response<T> = Ok(body: T) | Error(status: nat)

  /** What a handler's `try` block raises. */
  datatype Raised =
    | NotFound          // `HTTPException(status_code=404)`
    | ValidationError   // `Invoice(**doc)` rejects the document
    | DatabaseError     // the database call raises

  /** How a handler's `try` block ends. */
  datatype Outcome<T> = Returned(value: T) | Threw(exc: Raised)

  /** `except Exception as e: raise HTTPException(status_code=status, ...)`:
      every exception, the handler's own `HTTPException(404)` included,
      becomes `status`. */
  function ExceptAll<T>(o: Outcome<T>, status: nat): (r: Response<T>)
    ensures o.Returned? <==> r.Ok?
    ensures o.Returned? ==> r.body == o.value
    ensures o.Threw? ==> r == Error(status)
  {
    match o
    case Returned(v) => Ok(v)
    case Threw(_) => Error(status)
  }

  /** The same with `except HTTPException: raise` in front, so that the
      handler's own 404 reaches the client. */
  function ExceptAllButHttp<T>(o: Outcome<T>, status: nat): (r: Response<T>)
    ensures o.Returned? <==> r.Ok?
    ensures o.Returned? ==> r.body == o.value
    ensures o == Threw(NotFound) ==> r == Error(404)
    ensures o.Threw? && o.exc != NotFound ==> r == Error(status)
  {
    match o
    case Returned(v) => Ok(v)
    case Threw(NotFound) => Error(404)
    case Threw(_) => Error(status)
  }

  // ------------------------------------------------------------- handlers

  /** The `try` block of `create_invoice`: build, prepare and insert. */
  function CreateInvoiceBody(data: InvoiceCreate, id: string, date: DateTime, createdAt: DateTime,
                             iso: DateTime -> string, dbOk: bool, store: seq<Json>): (r: (Outcome<Invoice>, seq<Json>))
    ensures dbOk ==> r == (Returned(BuildInvoice(data, id, date, createdAt)),
                           store + [StoredDocument(iso, BuildInvoice(data, id, date, createdAt))])
    ensures !dbOk ==> r == (Threw(DatabaseError), store)
  {
    var inv := BuildInvoice(data, id, date, createdAt);
    if dbOk then (Returned(inv), store + [StoredDocument(iso, inv)]) else (Threw(DatabaseError), store)
  }

  /** `POST /api/invoices`: the new invoice, or 400 when storing fails. */
  function CreateInvoice(data: InvoiceCreate, id: string, date: DateTime, createdAt: DateTime,
                         iso: DateTime -> string, dbOk: bool, store: seq<Json>): (r: (Response<Invoice>, seq<Json>))
    ensures dbOk ==> r.0.Ok? && r.0.body == BuildInvoice(data, id, date, createdAt)
    ensures dbOk ==> r.1 == store + [StoredDocument(iso, r.0.body)]
    ensures !dbOk ==> r == (Error(400), store)
  {
    var (o, store') := CreateInvoiceBody(data, id, date, createdAt, iso, dbOk, store);
    (ExceptAll(o, 400), store')
  }

  /** The `try` block of `get_invoice`: find, raise 404 when absent, parse
      the dates and validate. */
  function GetInvoiceBody(store: seq<Json>, fromIso: string -> Option<DateTime>, id: string, dbOk: bool): Outcome<Invoice>
  {
    if !dbOk then Threw(DatabaseError)
    else match FindOneIndex(store, id)
      case None => Threw(NotFound)
      case Some(i) =>
        match DecodeInvoice(ParseFromMongo(fromIso, store[i]))
        case Some(inv) => Returned(inv)
        case None => Threw(ValidationError)
  }

  /** `GET /api/invoices/{id}` as written: the 404 raised for a missing id
      is caught by `except Exception` and answered with 500. */
  function GetInvoiceAsWritten(store: seq<Json>, fromIso: string -> Option<DateTime>, id: string, dbOk: bool): (r: Response<Invoice>)
    ensures dbOk && FindOneIndex(store, id).None? ==> r == Error(500)
    ensures r.Ok? <==> GetInvoiceBody(store, fromIso, id, dbOk).Returned?
    ensures r.Error? ==> r.status == 500
  {
    ExceptAll(GetInvoiceBody(store, fromIso, id, dbOk), 500)
  }

  /** `GET /api/invoices/{id}` with the 404 let through. */
  function GetInvoice(store: seq<Json>, fromIso: string -> Option<DateTime>, id: string, dbOk: bool): (r: Response<Invoice>)
    ensures dbOk && FindOneIndex(store, id).None? ==> r == Error(404)
    ensures dbOk && FindOneIndex(store, id).Some? ==> r != Error(404)
    ensures r.Ok? <==> GetInvoiceBody(store, fromIso, id, dbOk).Returned?
  {
    ExceptAllButHttp(GetInvoiceBody(store, fromIso, id, dbOk), 500)
  }

  /** The confirmation `delete_invoice` returns. */
  const DeletedMessage := "Invoice deleted successfully"

  /** The `try` block of `delete_invoice`: delete, raise 404 when nothing
      was deleted. */
  function DeleteInvoiceBody(store: seq<Json>, id: string, dbOk: bool): (r: (Outcome<string>, seq<Json>))
  {
    if !dbOk then (Threw(DatabaseError), store)
    else
      var (store', deletedCount) := DeleteOne(store, id);
      if deletedCount == 0 then (Threw(NotFound), store') else (Returned(DeletedMessage), store')
  }

  /** `DELETE /api/invoices/{id}` as written: a missing id is answered
      with 500. */
  function DeleteInvoiceAsWritten(store: seq<Json>, id: string, dbOk: bool): (r: (Response<string>, seq<Json>))
    ensures dbOk && FindOneIndex(store, id).None? ==> r == (Error(500), store)
    ensures dbOk && FindOneIndex(store, id).Some? ==> r.0 == Ok(DeletedMessage)
    ensures dbOk ==> r.1 == DeleteOne(store, id).0
    ensures r.0.Error? ==> r.0.status == 500 && r.1 == store
  {
    var (o, store') := DeleteInvoiceBody(store, id, dbOk);
    (ExceptAll(o, 500), store')
  }

  /** `DELETE /api/invoices/{id}` with the 404 let through. */
  function DeleteInvoice(store: seq<Json>, id: string, dbOk: bool): (r: (Response<string>, seq<Json>))
    ensures dbOk && FindOneIndex(store, id).None? ==> r == (Error(404), store)
    ensures dbOk && FindOneIndex(store, id).Some? ==> r.0 == Ok(DeletedMessage) && |r.1| == |store| - 1
    ensures dbOk ==> r.1 == DeleteOne(store, id).0
    ensures !dbOk ==> r == (Error(500), store)
  {
    var (o, store') := DeleteInvoiceBody(store, id, dbOk);
    (ExceptAllButHttp(o, 500), store')
  }

  // ---------------------------------------------------- store properties

  /** Asking for an id nobody stored: the handlers as written answer 500,
      the expected answer is 404. */
  lemma MissingInvoiceStatus(store: seq<Json>, fromIso: string -> Option<DateTime>, id: string)
    requires forall j :: 0 <= j < |store| ==> IdOf(store[j]) != Some(id)
    ensures GetInvoiceAsWritten(store, fromIso, id, true) == Error(500)
    ensures DeleteInvoiceAsWritten(store, id, true).0 == Error(500)
    ensures GetInvoice(store, fromIso, id, true) == Error(404)
    ensures DeleteInvoice(store, id, true).0 == Error(404)
  {
  }

  /** Finding an id in a collection that did not hold it before the append
      finds the appended document. */
  lemma {:induction false} FindAppended(store: seq<Json>, doc: Json, id: string)
    requires FindOneIndex(store, id).None? && IdOf(doc) == Some(id)
    ensures FindOneIndex(store + [doc], id) == Some(|store|)
  {
    if store != [] {
      assert (store + [doc])[1..] == store[1..] + [doc];
      FindAppended(store[1..], doc, id);
    }
  }

  /** Creating with a fresh id and reading it back returns the invoice that
      was created, with the computed totals. */
  lemma CreateThenGet(data: InvoiceCreate, id: string, date: DateTime, createdAt: DateTime,
                      iso: DateTime -> string, fromIso: string -> Option<DateTime>, store: seq<Json>)
    requires InverseCodec(iso, fromIso)
    requires FindOneIndex(store, id).None?
    ensures var (created, store') := CreateInvoice(data, id, date, createdAt, iso, true, store);
            && created == Ok(BuildInvoice(data, id, date, createdAt))
            && GetInvoice(store', fromIso, id, true) == created
            && GetInvoiceAsWritten(store', fromIso, id, true) == created
            && created.body.totals == ClientTotals.CalculateTotals(data.lineItems, data.serviceCharges)
  {
    var inv := BuildInvoice(data, id, date, createdAt);
    var doc := StoredDocument(iso, inv);
    LoadStoredDocument(iso, fromIso, inv);
    StoredId(iso, inv);
    FindAppended(store, doc, id);
    ServerTotalsMatchClient(data);
  }

  /** Creating with a fresh id keeps the ids unique. */
  lemma CreateKeepsIdsUnique(data: InvoiceCreate, id: string, date: DateTime, createdAt: DateTime,
                             iso: DateTime -> string, dbOk: bool, store: seq<Json>)
    requires UniqueIds(store) && FindOneIndex(store, id).None?
    ensures UniqueIds(CreateInvoice(data, id, date, createdAt, iso, dbOk, store).1)
  {
    StoredId(iso, BuildInvoice(data, id, date, createdAt));
  }

  /** With unique ids, a deleted invoice is gone: the collection loses that
      one document and keeps the others in order, and reading or deleting
      the id again finds nothing. */
  lemma DeleteThenGet(store: seq<Json>, fromIso: string -> Option<DateTime>, id: string)
    requires UniqueIds(store) && FindOneIndex(store, id).Some?
    ensures var (deleted, store') := DeleteInvoice(store, id, true);
            && deleted == Ok(DeletedMessage)
            && store' == store[..FindOneIndex(store, id).value] + store[FindOneIndex(store, id).value + 1..]
            && UniqueIds(store')
            && GetInvoice(store', fromIso, id, true) == Error(404)
            && DeleteInvoice(store', id, true).0 == Error(404)
            && GetInvoiceAsWritten(store', fromIso, id, true) == Error(500)
  {
    var i := FindOneIndex(store, id).value;
    RemovalDropsId(store, i, id);
    RemovalKeepsIdsUnique(store, i);
    var store' := store[..i] + store[i + 1..];
    assert DeleteInvoice(store, id, true) == (Ok(DeletedMessage), store');
    assert FindOneIndex(store', id).None?;
  }

  /** Removing the document that holds a unique id leaves no document with it. */
  lemma RemovalDropsId(store: seq<Json>, i: nat, id: string)
    requires UniqueIds(store) && i < |store| && IdOf(store[i]) == Some(id)
    ensures var store' := store[..i] + store[i + 1..];
            forall j :: 0 <= j < |store'| ==> IdOf(store'[j]) != Some(id)
  {
    var store' := store[..i] + store[i + 1..];
    forall j | 0 <= j < |store'| ensures IdOf(store'[j]) != Some(id) {
      if j < i {
        assert store'[j] == store[j];
      } else {
        assert store'[j] == store[j + 1];
      }
    }
  }

  /** Removing a document keeps the ids unique. */
  lemma RemovalKeepsIdsUnique(store: seq<Json>, i: nat)
    requires UniqueIds(store) && i < |store|
    ensures UniqueIds(store[..i] + store[i + 1..])
  {
    var store' := store[..i] + store[i + 1..];
    forall a, b | 0 <= a < b < |store'| && IdOf(store'[a]).Some? ensures IdOf(store'[a]) != IdOf(store'[b]) {
      var a0 := if a < i then a else a + 1;
      var b0 := if b < i then b else b + 1;
      assert store'[a] == store[a0] && store'[b] == store[b0];
    }
  }
}
