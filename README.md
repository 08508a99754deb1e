# Invoice app core, modelled in Dafny

The invoice app is a React form (`frontend/src/App.js`) that posts invoices
to a FastAPI backend (`backend/server.py`) backed by MongoDB. This project
models the logic under the markup and the plumbing, and proves properties
of it:

- **The line-item draft list** (module `LineItems`). It supports three edits:
  - `updateLineItemAmount`, which writes one field and recomputes
    `amount = quantity * rate` when quantity or rate changes;
  - `addLineItem`;
  - `removeLineItem`, which the form refuses while one line is left.

  The model proves an invariant for the list: at least one line, and every
  amount equal to quantity times rate.
- **The totals**, computed twice:
  - on the client, `calculateTotals` (module `ClientTotals`);
  - on the server, inside `create_invoice` (module `InvoiceApi`).

  There is one reference formula (`InvoiceData.TotalsFor`), and both sides
  are proved to meet it and to agree. GST applies to the service charge
  only.
- **The default invoice number** `INV-YYYYMMDD-NNN` (module
  `InvoiceNumber`). It is built with `String(n).padStart(w, '0')`. A parser
  proves that the number carries the date and the serial it was made from.
- **The JavaScript built-ins the form relies on** (module `JsBuiltins`):
  - `String(n)` for integers;
  - `padStart`, `trimStart`, `parseInt` and `parseFloat`;
  - `Array.prototype.reduce` and `filter`.

  The input coercions `parseInt(text) || 0` and `parseFloat(text) || 0` are
  built on them (module `FormState`).
- **The form component's state** (class `FormState.InvoiceForm`). Each
  `onChange` handler, the number-generating effect and `handleSubmit` are
  methods that update the fields in place.
- **The Mongo date walkers** `prepare_for_mongo` and `parse_from_mongo` (module
  `MongoJson`). They run over a `Json` datatype. The model states exactly
  which nodes they convert and which they skip, and proves the round trip
  for documents on which it is lossless.
- **The invoice endpoints** (module `InvoiceApi`):
  - `create_invoice`, which recomputes the totals, overwrites
    `gst_amount`, stores the prepared document and answers 400 on failure;
  - `get_invoice` and `delete_invoice`, including their exception mapping.

Some things the code does only through calls into code outside this model.
These become parameters:

- the clock (a `LocalDate`, or a `DateTime` for the backend);
- `Math.random()` (a real in [0, 1));
- `uuid.uuid4()` (the id string);
- `isoformat` and `fromisoformat` (function parameters, linked by the
  hypothesis `MongoJson.InverseCodec`);
- whether a database call succeeds (`dbOk`).

The collection is a sequence of documents in insertion order, addressed by
their `"id"` field.

Money is a `real`.

## Model

| member | source | states |
|---|---|---|
| InvoiceData.TotalsForUnique | frontend/src/App.js:61-72 | The documented formula fixes all four totals: two results that meet it for the same lines and service charge are equal. |
| InvoiceData.SumAmountsUpdate | frontend/src/App.js:62 | Replacing line `i` changes the sum of amounts by the new amount minus the old one. |
| InvoiceData.SumOfConsistentItems | frontend/src/App.js:42 | When every line has amount = quantity * rate, the sum of amounts is the sum of quantity * rate. |
| LineItems.EditedItem | frontend/src/App.js:39-43 | The edited field takes the new value and the other fields keep theirs. A description edit keeps the amount. A quantity or rate edit makes amount = quantity * rate. |
| LineItems.UpdateLineItemAmount | frontend/src/App.js:37-46 | For an index inside the list, only line `index` changes, to the edited line, and the length stays the same. An index outside the list makes the field write throw: `ok` is false and the list is unchanged. |
| LineItems.AddLineItem | frontend/src/App.js:49-51 | The length grows by one. The earlier lines are unchanged. The new last line is `{'' , 1, 0, 0}` and satisfies the amount relation. |
| LineItems.KeepOtherIndex | frontend/src/App.js:56 | The `filter` callback keeps exactly the positions other than `index`. |
| LineItems.RemoveLineItem | frontend/src/App.js:54-58 | With one line (or none) the list is returned as it is. With more lines and an index in range, exactly line `index` is removed and the rest keep their order. An index out of range leaves the list unchanged. A nonempty list stays nonempty. |
| LineItems.InitialDraftInvariant | frontend/src/App.js:25-27 | The starting list of one default line satisfies the invariant (at least one line, every amount = quantity * rate). |
| LineItems.EditKeepsDraftInvariant | frontend/src/App.js:37-46 | Replacing a line by its edited form keeps the invariant. |
| LineItems.AddKeepsDraftInvariant | frontend/src/App.js:49-51 | Appending the default line keeps the invariant. |
| LineItems.RemoveKeepsDraftInvariant | frontend/src/App.js:54-58 | Removing a line keeps the invariant, including the bound of at least one line. |
| ClientTotals.ReduceAddsAmounts | frontend/src/App.js:62 | `reduce((sum, item) => sum + item.amount, acc)` is `acc` plus the sum of the amounts. |
| ClientTotals.CalculateTotals | frontend/src/App.js:61-72 | The result meets the reference formula: the subtotal is the sum of the amounts, `serviceCharge` echoes the service amount, GST is amount * rate / 100, and the grand total is subtotal + service amount + GST. |
| ClientTotals.ShiftOneAmount | frontend/src/App.js:62-64 | Changing one line's amount by `d` moves the subtotal and the grand total by exactly `d`. It leaves the GST and the service figure unchanged. |
| ClientTotals.GstIgnoresLineItems | frontend/src/App.js:63-64 | The GST, and the grand total minus the subtotal, are the same for any two lists of lines. |
| ClientTotals.SubtotalOfConsistentLines | frontend/src/App.js:42 | When every line is consistent, the subtotal is the sum of quantity * rate. (also App.js line 62) |
| ClientTotals.ExampleInvoiceTotals | frontend/src/App.js:61-72 | Lines 2 x 500 and 1 x 1500, with a service charge of 1000 at 18%, give 2500 / 1000 / 180 / 3680. |
| InvoiceNumber.RandomSerial | frontend/src/App.js:83 | `Math.floor(random * 1000)` is below 1000 for a random value in [0, 1). |
| InvoiceNumber.NatToStringLength | frontend/src/App.js:81-83 | A number below 10^k has at most k digits, so padding to k digits never has to truncate. |
| InvoiceNumber.PaddedNumeral | frontend/src/App.js:81-83 | `String(n).padStart(w, '0')`, for n below 10^w, is exactly `w` decimal digits that denote `n`. |
| InvoiceNumber.TwoDigits | frontend/src/App.js:81-82 | A month or day printed with `padStart(2, '0')` is two digits that denote it. |
| InvoiceNumber.ThreeDigits | frontend/src/App.js:83 | The serial printed with `padStart(3, '0')` is three digits that denote it. |
| InvoiceNumber.Concat | frontend/src/App.js:84 | The template has "INV-" first, then the year, two month characters, two day characters, "-" and three serial characters, at these exact positions. |
| InvoiceNumber.FormatInvoiceNumber | frontend/src/App.js:78-85 | The number is the printed year plus 12 characters long, starts with "INV-" and has "-" four characters from the end. |
| InvoiceNumber.GenerateInvoiceNumber | frontend/src/App.js:78-85 | The same shape, for the serial drawn from `Math.random()`. |
| InvoiceNumber.ParseYearOfIntToString | frontend/src/App.js:80 | Any printed year, negative ones included, reads back as that year. (also App.js line 84) |
| InvoiceNumber.ParseLaidOut | frontend/src/App.js:84 | Text laid out by the template with all-digit parts reads back as those parts. |
| InvoiceNumber.FormattedNumberParses | frontend/src/App.js:78-85 | A formatted number reads back as its year, its month 1-12, its day and its serial. |
| InvoiceNumber.GeneratedNumberParses | frontend/src/App.js:78-85 | A generated number reads back as the year, the month (getMonth() + 1), the day and `Math.floor(random * 1000)`. |
| InvoiceNumber.NextInvoiceNumber | frontend/src/App.js:87-89 | An empty number is replaced by the generated one. A nonempty number is kept as it is. The result is never empty. |
| InvoiceNumber.NextInvoiceNumberIsStable | frontend/src/App.js:87-90 | Running the effect again, at any date and with any random value, keeps the number it produced. |
| JsBuiltins.DigitChar | frontend/src/App.js:81-83 | The digit character for d < 10 is a decimal digit whose value is d. |
| JsBuiltins.LeadingDigits | frontend/src/App.js:246 | The run of digits `parseInt`/`parseFloat` read is made of digits of the radix and is no longer than the input (also App.js line 258). That it is a prefix, and the longest one, is LeadingDigitsIsLongest. |
| JsBuiltins.LeadingDigitsIsLongest | frontend/src/App.js:246 | That prefix is a prefix of the input, and the character after it, if any, is not a digit of the radix. (also App.js line 258) |
| JsBuiltins.LeadingDigitsOfDigits | frontend/src/App.js:246 | Digits followed by a non-digit (or nothing) have exactly those digits as their prefix. (also App.js line 258) |
| JsBuiltins.NatToString | frontend/src/App.js:81-83 | `String(n)` of a natural number is nonempty decimal digits denoting `n`, with no leading zero unless `n` is 0. |
| JsBuiltins.IntToString | frontend/src/App.js:80-84 | `String(i)` is the digits of `i`, preceded by '-' exactly when `i` is negative. |
| JsBuiltins.PadStart | frontend/src/App.js:81-83 | `padStart` never truncates. The result has the target length when the input is shorter and the padding is nonempty, and otherwise the input's length. The input ends the result. Every position before it repeats the padding cyclically. |
| JsBuiltins.ZeroPadValue | frontend/src/App.js:81-83 | Padding digits with '0' keeps them all digits and keeps their value. |
| JsBuiltins.ZeroPrefixValue | frontend/src/App.js:81-83 | Leading zeros do not change the value of a numeral. |
| JsBuiltins.ZerosValue | frontend/src/App.js:81-83 | A string of zeros denotes 0. |
| JsBuiltins.TrimStartStrips | frontend/src/App.js:246 | The leading whitespace `parseInt`/`parseFloat` skip is removed exactly. The rest is a suffix, the dropped characters are all whitespace, and the rest does not start with whitespace. (also App.js line 258) |
| JsBuiltins.Pow10 | frontend/src/App.js:258 | 10^e is positive for every integer e. |
| JsBuiltins.Shift10Left | frontend/src/App.js:258 | Shifting by -k decimal places divides by 10^k. |
| JsBuiltins.SplitMantissa | frontend/src/App.js:258 | The whole and the fraction digits of a decimal literal are digit strings. |
| JsBuiltins.ParseOfNonNumeric | frontend/src/App.js:246 | Text whose first non-blank, unsigned character is neither a digit nor '.' gives NaN under both `parseInt` and `parseFloat`. (also App.js line 258) |
| JsBuiltins.IntToStringParts | frontend/src/App.js:246 | `String(i)` has no leading whitespace, and its sign and its digits are as `parseInt` reads them. |
| JsBuiltins.ParseIntOfIntToString | frontend/src/App.js:246 | `parseInt(String(i)) == i` for every integer. |
| JsBuiltins.DigitsMagnitude | frontend/src/App.js:258 | An unsigned digit string has the value of its digits as a float magnitude. |
| JsBuiltins.ParseFloatOfDigits | frontend/src/App.js:258 | `parseFloat` of a whole number such as "12" is its value. (also App.js lines 327, 340) |
| JsBuiltins.ParseFloatOfNegativeDigits | frontend/src/App.js:258 | `parseFloat` of "-12" is minus its value. (also App.js lines 327, 340) |
| JsBuiltins.NegativeNumeral | frontend/src/App.js:258 | A '-' in front of a numeral that starts with a digit negates what `parseFloat` reads. |
| JsBuiltins.SignedMagnitude | frontend/src/App.js:258 | Text with no leading whitespace and the sign '-' parses to minus its unsigned magnitude. |
| JsBuiltins.ParseFloatOfDecimal | frontend/src/App.js:258 | `parseFloat("W.F")` is W + F / 10^|F|. (also App.js lines 327, 340) |
| JsBuiltins.UnsignedNumeral | frontend/src/App.js:246 | Text that starts with a digit is read without a sign by both parsers. (also App.js line 258) |
| JsBuiltins.PlainDecimalMagnitude | frontend/src/App.js:258 | A mantissa without an exponent has magnitude W + F / 10^|F|. |
| JsBuiltins.SplitDecimal | frontend/src/App.js:258 | "W.F" splits into W, F and an empty exponent part. |
| JsBuiltins.FilterDropsIndex | frontend/src/App.js:56 | `filter((_, i) => i !== index)` is the list without position `index`, or the list itself when `index` is out of range. |
| JsBuiltins.FilterFromDropsIndex | frontend/src/App.js:56 | From position k up to `index` the filter copies the elements, skips `index`, and copies the rest. |
| JsBuiltins.FilterFromKeepsRest | frontend/src/App.js:56 | Beyond the dropped index, the filter copies the suffix unchanged. |
| FormState.QuantityInput | frontend/src/App.js:246 | `parseInt(text) \|\| 0` is the parsed integer, or 0 when nothing parses. |
| FormState.NumberInput | frontend/src/App.js:258 | `parseFloat(text) \|\| 0` is the parsed number, or 0 when nothing parses. (also App.js lines 327, 340) |
| FormState.NonNumericInputIsZero | frontend/src/App.js:246 | Non-numeric input is coerced to 0 in the quantity, rate, service amount and GST rate fields. (also App.js lines 258, 327, 340) |
| FormState.DisplayedQuantityReadsBack | frontend/src/App.js:246 | A quantity the field displays reads back as that quantity. |
| FormState.IntegerInputValue | frontend/src/App.js:258 | A whole number typed into a rate or amount field is read as its value. (also App.js lines 327, 340) |
| FormState.NegativeIntegerInputValue | frontend/src/App.js:258 | A negative whole number typed there is read as its value. (also App.js lines 327, 340) |
| FormState.DecimalInputValue | frontend/src/App.js:258 | A decimal "W.F" typed there is read as W + F / 10^\|F\|. (also App.js lines 327, 340) |
| FormState.WithCustomerField | frontend/src/App.js:174-215 | `{...customer, field: text}` changes exactly the named field. |
| FormState.NonNumericQuantityGivesZeroAmount | frontend/src/App.js:246 | A non-numeric quantity makes the line's amount 0, so the amount is always a number. |
| FormState.InvoiceForm.constructor | frontend/src/App.js:17-34 | Every `useState` starts at its initial value, and the form satisfies its invariant. |
| FormState.InvoiceForm.Totals | frontend/src/App.js:74 | The totals shown meet the reference formula for the current lines and service charge. |
| FormState.InvoiceForm.SetInvoiceNumber | frontend/src/App.js:144 | Typing sets the number and nothing else. |
| FormState.InvoiceForm.RunInvoiceNumberEffect | frontend/src/App.js:77-90 | An empty number is replaced by a generated one. Any other number is kept. Nothing else changes. |
| FormState.InvoiceForm.SetCustomerField | frontend/src/App.js:174-215 | Exactly the named customer field changes. |
| FormState.InvoiceForm.EditLineItem | frontend/src/App.js:37-46 | For an index in range, the one edited line changes. Otherwise the call throws and the state is as before. The invariant is kept and the other fields are unchanged. (also App.js line 236) |
| FormState.InvoiceForm.OnQuantityInput | frontend/src/App.js:246 | The coerced integer becomes the quantity, and the amount follows as quantity * rate. |
| FormState.InvoiceForm.OnRateInput | frontend/src/App.js:258 | The coerced number becomes the rate, and the amount follows as quantity * rate. |
| FormState.InvoiceForm.AddLineItem | frontend/src/App.js:49-51 | The list becomes `addLineItem`'s result and the invariant is kept. (also App.js line 292) |
| FormState.InvoiceForm.RemoveLineItem | frontend/src/App.js:54-58 | The list becomes `removeLineItem`'s result and the invariant is kept, so at least one line remains. (also App.js lines 280-281) |
| FormState.InvoiceForm.SetServiceDescription | frontend/src/App.js:315 | Only the service description changes. |
| FormState.InvoiceForm.OnServiceAmountInput | frontend/src/App.js:327 | Only the service amount changes, to the coerced number. |
| FormState.InvoiceForm.OnGstRateInput | frontend/src/App.js:340 | Only the GST rate changes, to the coerced number. |
| FormState.InvoiceForm.Submit | frontend/src/App.js:92-119 | The payload is the current number, customer, lines and service charge, and the backend's totals for it equal the totals the form showed. After a successful post every field is back at its initial value. After a failed post the state is kept. In both cases the form is no longer submitting. |
| FormState.InvoiceForm.Reset | frontend/src/App.js:107-111 | The fields get their initial values and the invariant holds. |
| MongoJson.FindIndex | backend/server.py:72 | The position found holds the key asked for (also server.py line 84). |
| MongoJson.FindFrom | backend/server.py:72 | The same, at or after the starting position. (also server.py line 84) |
| MongoJson.FindFromIsFirst | backend/server.py:72 | The search from position `n` finds the first entry holding the key. It finds nothing exactly when no entry from `n` on holds it (also server.py line 84). |
| MongoJson.FindIndexIsFirst | backend/server.py:84-85 | A dict lookup finds the first entry with the key, and finds nothing exactly when the key is absent. |
| MongoJson.FindIndexSameKeys | backend/server.py:72-78 | Rewriting values in place keeps every key's position. |
| MongoJson.PrepareAt | backend/server.py:69-79 | `prepare_for_mongo` keeps the shape: a path exists afterwards exactly when it existed before. A datetime leaf becomes its ISO string at the visited paths (dict values at any depth, reached through dicts and through dicts inside lists). Every other leaf, and every leaf off those paths, is unchanged. |
| MongoJson.PrepareValueAt | backend/server.py:73-78 | The same for the value under one key of a visited dict. |
| MongoJson.PrepareListAt | backend/server.py:77-78 | In a list only the dict elements are walked. Other elements, nested lists included, are kept as they are. |
| MongoJson.VisitedAfterKey | backend/server.py:75-76 | Below a dict value, visiting from the top is visiting from that value. |
| MongoJson.VisitedAfterIndex | backend/server.py:77-78 | Behind a list index, the path is visited as the element's own path. |
| MongoJson.NotVisitedBelowLeaf | backend/server.py:71 | Nothing inside a value that is not a dict is visited. (also server.py line 78) |
| MongoJson.PrepareSkipsNestedLists | backend/server.py:71 | Three skipped cases. A datetime directly in a list stays a datetime. A dict inside a list inside a list is not converted. Non-dict input is returned unchanged. (also server.py lines 78-79) |
| MongoJson.ReplaceZ | backend/server.py:87 | `replace('Z', '+00:00')` leaves no 'Z' and leaves text without 'Z' unchanged. |
| MongoJson.ReplaceZIdempotent | backend/server.py:87 | Replacing twice is replacing once. |
| MongoJson.ParseAt | backend/server.py:81-94 | `parse_from_mongo` keeps the shape. A string leaf under "date" or "created_at" at a visited path, after 'Z' is replaced, becomes the parsed datetime, or stays the same string when parsing fails. Every other leaf is unchanged. |
| MongoJson.ParseValueAt | backend/server.py:85-93 | The same for the value under one key of a visited dict. |
| MongoJson.ParseListAt | backend/server.py:92-93 | In a list only the dict elements are parsed. |
| MongoJson.DateAfterRoundTrip | backend/server.py:74 | When `fromisoformat` inverts `isoformat`, a datetime at a visited path under "date"/"created_at" comes back as itself. At a visited path under any other key it comes back as its ISO string. At a path the walk skips it is untouched. (also server.py lines 85-87) |
| MongoJson.RoundTrip | backend/server.py:69-94 | With that hypothesis, parsing a prepared document returns the original for every lossless document: at every visited place, no string sits under "date" or "created_at" (it would be parsed into a datetime) and no datetime sits under any other key (it would come back as its ISO string). |
| MongoJson.RoundTripValue | backend/server.py:72-93 | The same for one dict value. |
| InvoiceApi.SumFromAmounts | backend/server.py:101 | `sum(item.amount for item in line_items)` is the sum of the amounts. |
| InvoiceApi.CreateTotals | backend/server.py:101-104 | The server's totals meet the reference formula, using the submitted amounts. (also server.py lines 110-115) |
| InvoiceApi.ServerTotalsMatchClient | backend/server.py:101-104 | The server's totals are exactly the client's `calculateTotals` for the same payload. |
| InvoiceApi.SubtotalUsesSubmittedAmounts | backend/server.py:101 | The subtotal is built from the submitted `amount` fields and not from quantity * rate. The two agree only when the lines are consistent; a line 2 x 100 sent with amount 1 counts as 1. |
| InvoiceApi.BuildInvoice | backend/server.py:107-121 | The invoice keeps the submitted number, customer and lines. It carries the computed totals, the given id and timestamps, and the service charge with `gst_amount` replaced by the computed GST. |
| InvoiceApi.BackendTestExample | backend_test.py:66-114 | The backend test's request gives totals 350 / 50 / 9 / 409 and a GST amount of 9, although it was sent as 0. |
| InvoiceApi.DecodeEncodeCustomer | backend/server.py:28-33 | A customer encoded as a document decodes back to itself. |
| InvoiceApi.DecodeEncodeLineItem | backend/server.py:35-39 | The same for a line item. |
| InvoiceApi.DecodeEncodeLineItems | backend/server.py:58 | The same for a list of line items. |
| InvoiceApi.DecodeEncodeServiceCharge | backend/server.py:41-45 | The same for a service charge. |
| InvoiceApi.DecodeEncodeTotals | backend/server.py:47-51 | The same for totals. |
| InvoiceApi.DecodeEncode | backend/server.py:53-61 | `Invoice(**invoice.dict())` gives the invoice back. (also server.py line 145) |
| InvoiceApi.DecodeFromFields | backend/server.py:145 | A document whose fields decode to an invoice's fields decodes to that invoice. |
| InvoiceApi.EncodedInvoiceIsLossless | backend/server.py:53-61 | An invoice document holds datetimes only under "date" and "created_at", so the store round trip loses nothing. (also server.py line 124) |
| InvoiceApi.StoredId | backend/server.py:124 | The stored document's "id" is the invoice's id. (also server.py line 142) |
| InvoiceApi.LoadStoredDocument | backend/server.py:124 | With inverse codecs, loading the stored document gives the invoice back. (also server.py line 145) |
| InvoiceApi.FindOneIndex | backend/server.py:142 | `find_one({"id": id})` finds the first document with that id, and finds none exactly when no document has it. |
| InvoiceApi.DeleteOne | backend/server.py:152-153 | `delete_one` removes exactly the first matching document and reports a count of 1, or leaves the collection unchanged with a count of 0. |
| InvoiceApi.ExceptAll | backend/server.py:128-129 | `except Exception` turns every exception, an `HTTPException` included, into the given status. (also server.py lines 146-147) |
| InvoiceApi.ExceptAllButHttp | backend/server.py:144 | Letting the 404 through maps the not-found exception to 404 and every other exception to the given status. (also server.py lines 146-147) |
| InvoiceApi.CreateInvoiceBody | backend/server.py:99-127 | A successful database call returns the built invoice and appends its prepared document. A failed one raises and leaves the collection unchanged. |
| InvoiceApi.CreateInvoice | backend/server.py:97-129 | The created invoice with the document appended, or 400 with the collection unchanged. |
| InvoiceApi.GetInvoiceAsWritten | backend/server.py:139-147 | As written, a missing id is answered with 500, and every error is 500. |
| InvoiceApi.GetInvoice | backend/server.py:139-147 | With the 404 let through, a missing id is answered with 404 and a present one never is. |
| InvoiceApi.DeleteInvoiceAsWritten | backend/server.py:149-157 | As written, a missing id is answered with 500 and nothing is deleted. A present id gets the confirmation. When the database answers, the collection is what `delete_one` leaves. |
| InvoiceApi.DeleteInvoice | backend/server.py:149-157 | With the 404 let through, a missing id gets 404. A present one gets the confirmation and one document fewer. When the database answers, the collection is what `delete_one` leaves: the first document with the id removed and the others kept in order. A database failure gets 500, with nothing removed. |
| InvoiceApi.MissingInvoiceStatus | backend/server.py:139-157 | For an id no document has, both handlers as written answer 500, while the intended handlers answer 404. |
| InvoiceApi.FindAppended | backend/server.py:125 | A document appended with a fresh id is the one found for it. (also server.py line 142) |
| InvoiceApi.CreateThenGet | backend/server.py:97-147 | Creating with a fresh id and reading it back returns the created invoice, with totals equal to the client's. |
| InvoiceApi.CreateKeepsIdsUnique | backend/server.py:54 | Creating with a fresh id keeps the ids unique. (also server.py line 125) |
| InvoiceApi.DeleteThenGet | backend/server.py:139-157 | After a delete, the collection is the old one without the document that held the id, the others in order, and the ids stay unique. Reading or deleting the id again finds nothing (404, or 500 as written). |
| InvoiceApi.RemovalDropsId | backend/server.py:152 | Removing the document with a unique id leaves no document with it. |
| InvoiceApi.RemovalKeepsIdsUnique | backend/server.py:152 | Removing a document keeps the ids unique. |

## Left out

- HTTP, routing, CORS, axios and the `/api` prefix are out of scope. The handlers are modelled as functions from a request and a collection to a response and a collection.
- The Motor/MongoDB driver is out of scope. The collection is a sequence of documents in insertion order, searched by the `"id"` field. Whether a call succeeds is the parameter `dbOk`, and a failure is one kind of exception.
- `get_invoices` (backend/server.py:131-137) is not modelled: its sort and limit are done by MongoDB.
- The root and health endpoints are not modelled. They are constant responses.
- `cleanup_old_invoices.py` is not modelled. It is a single `delete_many({})` script.
- React rendering, routing, `useEffect` scheduling, `toast`, `window.confirm`, `console.error` and the `InvoiceList`/`Navigation` components are not modelled. In particular, the list page's fetch and delete calls are HTTP calls.
- The effect is modelled as one method that is run when the app chooses; React's re-render loop is not modelled.
- FormState.InvoiceForm.Submit: `handleSubmit` is one atomic step that can always be called. The model does not capture that other handlers can run while the post at frontend/src/App.js:104 is awaited, with their edits then wiped by the reset on success. It also does not capture that the browser's `required` and `min` checks on the inputs can stop the submit from firing at all.
- Floating point is not modelled. Money and rates are `real`, and quantities are unbounded integers. Binary rounding drift and the `toFixed(2)` display rounding are not modelled.
- FormState.NumberInput: `parseFloat` returns a real or nothing. `Infinity`, `NaN` and the range of doubles are not represented. Text such as "Infinity", which JavaScript reads as Infinity, reads as nothing here, and so as 0. An overflowing literal is not mapped to Infinity either.
- `String()` of a non-integer number is not modelled. Read-back of the displayed value is proved for integer text only (quantities). For rates and amounts it is proved for integer and plain decimal text.
- `new Date()`, `Math.random()`, `uuid.uuid4()` and `datetime.now()` are parameters.
- `isoformat` and `fromisoformat` are parameters. Their inverse property is the hypothesis `MongoJson.InverseCodec`, taken as a requires, and the proofs depend on nothing else about them.
- Pydantic validation and coercion are not modelled. That covers type checks, the 422 answers for malformed bodies, a `gst_number` left absent becoming `None`, and `Invoice(**...)` rejecting a malformed stored document, which is modelled only as a decode that fails.
- The `_id` field MongoDB adds to an inserted document is not modelled.
- LineItems.UpdateLineItemAmount: the source's shallow copy shares the line objects with the previous state, so the field write also changes the old array's element in place. The model works on values and does not capture that aliasing.
- The features `backend_test_new.py` exercises (CGST/SGST split, amounts in words, company settings, `PUT` updates) have no code in these files and are not modelled.
- The collection abstracts a map from ids to invoices as a list of documents. Uniqueness of ids is the invariant `InvoiceApi.UniqueIds`, which holds when every new id is fresh. The uuid's freshness is therefore a requires of the lemmas that need it.

## Findings

| source | as written | input that shows it | evidently intended | confidence | as-written member | corrected member |
|---|---|---|---|---|---|---|
| backend/server.py:139-157 | In `get_invoice` and `delete_invoice`, the `HTTPException(404)` raised inside `try` for a missing id is caught by `except Exception` and re-raised with status 500 | `GET` or `DELETE` of `/api/invoices/invalid-id` on a collection without that id; InvoiceApi.MissingInvoiceStatus exhibits it | 404 "Invoice not found", the answer the backend test expects (backend_test.py:199-204) | not executed | InvoiceApi.GetInvoiceAsWritten, InvoiceApi.DeleteInvoiceAsWritten | InvoiceApi.GetInvoice, InvoiceApi.DeleteInvoice |
